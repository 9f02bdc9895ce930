/** Every step keeps the history of every mailbox and the places of its messages in agreement. */
module LaneProofs {
  import opened Types
  import opened ActorSteps
  import opened Runtime
  import opened Ownership
  import opened Invariants
  import opened MessageProofs
  import opened StructureProofs
  import opened MessageShapes
  import opened LoopProofs

  // ---- WellFormed ----

  lemma ExistsGrows(s: System, e: Event, a: ActorId, r: RoleId)
    requires Enabled(s, e) && Exists(s, a, r)
    ensures Exists(Apply(s, e), a, r)
  {
    hide Apply, Enabled;
    ActorShape(s, e, a);
  }

  lemma RootedGrows(s: System, e: Event, m: MsgId)
    requires Enabled(s, e) && MsgsOk(s) && Rooted(s, m)
    ensures Rooted(Apply(s, e), m)
  {
    MsgShape(s, e, m);
    var g := Apply(s, e).msgs[m];
    ExistsGrows(s, e, g.to, g.role);
    if g.path.Mailbox? { ExistsGrows(s, e, g.path.to, g.path.role); }
  }

  /** Where a new message goes exists. */
  lemma NewRooted(s: System, e: Event, n: MsgId)
    requires Enabled(s, e) && MsgsOk(s) && n in Apply(s, e).msgs && n !in s.msgs
    ensures Exists(s, Apply(s, e).msgs[n].to, Apply(s, e).msgs[n].role)
  {
    hide ApplyLoop, MsgsOk;
    NewShape(s, e, n);
    match e
    case Tick =>
    case Handle(u) =>
    case Envelope(v) => EnvelopeMoves(s, v);
    case Task(t) =>
      match t {
        case HelperSends(m) => SubmitMoves(s, m);
        case _ =>
      }
    case Handler(a, h) =>
      var x := s.actors[a];
      ReplyMoves(SetActor(s, a, x.(phase := LoopTop)), x.phase.msg, x.phase.value, h.n);
    case Loop(a, l) => LoopSteps(s, e);
  }

  lemma TaskFeeders(s: System, t: TaskEvent, f: FeederId)
    requires WellFormed(s) && TaskEnabled(s, t) && f in ApplyTask(s, t).feeders
    ensures Exists(s, ApplyTask(s, t).feeders[f].to, ApplyTask(s, t).feeders[f].role)
  {
    if t.HelperSends? { SubmitMoves(s, t.m); }
  }

  lemma KeepsFeederRoots(s: System, e: Event, f: FeederId)
    requires WellFormed(s) && MsgsOk(s) && Enabled(s, e) && f in Apply(s, e).feeders
    ensures Exists(Apply(s, e), Apply(s, e).feeders[f].to, Apply(s, e).feeders[f].role)
  {
    hide ApplyTask, ApplyEnvelope, ApplyLoop, ApplyHandler, MsgsOk;
    var d := Apply(s, e).feeders[f];
    assert Exists(s, d.to, d.role) by {
      match e
      case Tick =>
      case Handle(u) =>
      case Envelope(v) => EnvelopeMoves(s, v);
      case Task(t) => TaskFeeders(s, t, f);
      case Handler(a, h) => HandlerSteps(s, e);
      case Loop(a, l) => LoopSteps(s, e);
    }
    ExistsGrows(s, e, d.to, d.role);
  }

  lemma KeepsMsgRoots(s: System, e: Event, m: MsgId)
    requires WellFormed(s) && MsgsOk(s) && Enabled(s, e) && m in Apply(s, e).msgs
    ensures Rooted(Apply(s, e), m)
  {
    if m in s.msgs {
      RootedGrows(s, e, m);
    } else {
      NewRooted(s, e, m);
      NewShape(s, e, m);
      ExistsGrows(s, e, Apply(s, e).msgs[m].to, Apply(s, e).msgs[m].role);
    }
  }

  lemma KeepsActorRoots(s: System, e: Event, a: ActorId)
    requires WellFormed(s) && Enabled(s, e) && a in Apply(s, e).actors
    ensures Apply(s, e).actors[a].lanes.Keys != {}
  {
    if a in s.actors { ActorShape(s, e, a); } else { Started(s, e, a); }
  }

  lemma KeepsWellFormed(s: System, e: Event)
    requires WellFormed(s) && MsgsOk(s) && Enabled(s, e)
    ensures WellFormed(Apply(s, e))
  {
    var t := Apply(s, e);
    forall m | m in t.msgs ensures Rooted(t, m) { KeepsMsgRoots(s, e, m); }
    forall f | f in t.feeders ensures Exists(t, t.feeders[f].to, t.feeders[f].role) { KeepsFeederRoots(s, e, f); }
    forall a | a in t.actors ensures t.actors[a].lanes.Keys != {} { KeepsActorRoots(s, e, a); }
  }

  // ---- LanesOk ----

  /** The four kinds of place a message can have in a mailbox's history. */
  datatype Bucket = Elsewhere | InQueue | Taken | Thrown

  function BucketOf(stage: Stage): Bucket {
    match stage
    case Queued => InQueue
    case InHandler => Taken
    case Handled(_) => Taken
    case Crashed => Taken
    case Discarded => Thrown
    case _ => Elsewhere
  }

  predicate SamePlace(g: Msg, g': Msg) {
    g'.to == g.to && g'.role == g.role && BucketOf(g'.stage) == BucketOf(g.stage)
  }

  /** No mailbox changes, and no message enters or moves within one. */
  ghost predicate LanesQuiet(s: System, t: System) {
    && (forall a <- s.actors :: a in t.actors && t.actors[a].lanes == s.actors[a].lanes)
    && (forall m <- s.msgs :: m in t.msgs && SamePlace(s.msgs[m], t.msgs[m]))
    && (forall a <- t.actors :: a !in s.actors ==>
          forall r <- t.actors[a].lanes :: t.actors[a].lanes[r] == Lane([], [], [], []))
    && (forall m <- t.msgs :: m !in s.msgs ==> !t.msgs[m].stage.Accepted())
  }

  lemma QuietLane(s: System, t: System, a: ActorId, r: RoleId, l: Lane)
    requires LaneOk(s, a, r, l)
    requires forall m <- s.msgs :: m in t.msgs && (m in l.enqueued ==> SamePlace(s.msgs[m], t.msgs[m]))
    ensures LaneOk(t, a, r, l)
  {
    assert forall m <- l.began :: m in l.enqueued;
    assert forall m <- l.dropped :: m in l.enqueued;
    assert forall m <- l.queue :: m in l.enqueued;
  }

  lemma QuietLanes(s: System, t: System)
    requires LanesOk(s) && LanesQuiet(s, t)
    ensures LanesOk(t)
  {
    forall a, r | a in t.actors && r in t.actors[a].lanes
      ensures LaneOk(t, a, r, t.actors[a].lanes[r])
    {
      if a in s.actors { QuietLane(s, t, a, r, s.actors[a].lanes[r]); }
    }
  }

  /** A message in no mailbox is put at the end of its own. */
  lemma PushLane(s: System, m: MsgId, g': Msg)
    requires LanesOk(s) && Rooted(s, m) && BucketOf(s.msgs[m].stage) == Elsewhere
    requires g'.to == s.msgs[m].to && g'.role == s.msgs[m].role && g'.stage.Queued?
    ensures LanesOk(SetMsg(SetActor(s, g'.to, Push(s.actors[g'.to], g'.role, m)), m, g'))
  {
    hide LaneOk;
    var x := s.actors[g'.to];
    var t := SetMsg(SetActor(s, g'.to, Push(x, g'.role, m)), m, g');
    forall a, r | a in t.actors && r in t.actors[a].lanes
      ensures LaneOk(t, a, r, t.actors[a].lanes[r])
    {
      PushLaneAt(s, t, m, a, r);
      if a == g'.to && r == g'.role { PushedLane(t, a, r, s.actors[a].lanes[r], m); }
    }
  }

  lemma PushLaneAt(s: System, t: System, m: MsgId, a: ActorId, r: RoleId)
    requires LanesOk(s) && m in s.msgs && BucketOf(s.msgs[m].stage) == Elsewhere && Exists(s, a, r)
    requires m in t.msgs && t.msgs == s.msgs[m := t.msgs[m]]
    ensures LaneOk(t, a, r, s.actors[a].lanes[r]) && m !in s.actors[a].lanes[r].enqueued
  {
    var l := s.actors[a].lanes[r];
    if m in l.enqueued { InLaneAccepted(s, a, r, m); }
    QuietLane(s, t, a, r, l);
  }

  lemma PushedLane(t: System, a: ActorId, r: RoleId, l: Lane, m: MsgId)
    requires LaneOk(t, a, r, l) && m !in l.enqueued
    requires m in t.msgs && t.msgs[m].to == a && t.msgs[m].role == r && t.msgs[m].stage.Queued?
    ensures LaneOk(t, a, r, l.(queue := l.queue + [m], enqueued := l.enqueued + [m]))
  {}

  /** Every message of a mailbox's history was accepted. */
  lemma InLaneAccepted(s: System, a: ActorId, r: RoleId, m: MsgId)
    requires LanesOk(s) && Exists(s, a, r) && m in s.actors[a].lanes[r].enqueued
    ensures m in s.msgs && s.msgs[m].stage.Accepted() && s.msgs[m].to == a && s.msgs[m].role == r
  {
    var l := s.actors[a].lanes[r];
    assert LaneOk(s, a, r, l);
    assert m in l.began || m in l.dropped || m in l.queue;
  }

  /** A change to a message of another mailbox. */
  lemma OtherLane(s: System, t: System, m: MsgId, b: ActorId, q: RoleId)
    requires LanesOk(s) && Exists(s, b, q)
    requires m in s.msgs && m in t.msgs && t.msgs == s.msgs[m := t.msgs[m]]
    requires s.msgs[m].to != b || s.msgs[m].role != q
    ensures LaneOk(t, b, q, s.actors[b].lanes[q])
  {
    if m in s.actors[b].lanes[q].enqueued { InLaneAccepted(s, b, q, m); }
    QuietLane(s, t, b, q, s.actors[b].lanes[q]);
  }

  /** The oldest message of a mailbox is taken out or thrown away. */
  lemma PopLane(s: System, a: ActorId, r: RoleId, x': Actor, g': Msg)
    requires LanesOk(s) && Exists(s, a, r) && s.actors[a].lanes[r].queue != []
    requires var l := s.actors[a].lanes[r]; var m := l.queue[0];
             && m in s.msgs && g'.to == s.msgs[m].to && g'.role == s.msgs[m].role
             && ((g'.stage.InHandler? && l.dropped == [] && x'.lanes == s.actors[a].lanes[r := Pop(l)])
                 || (g'.stage.Discarded? && x'.lanes == s.actors[a].lanes[r :=
                       l.(queue := l.queue[1..], dropped := l.dropped + [m])]))
    ensures LanesOk(SetMsg(SetActor(s, a, x'), s.actors[a].lanes[r].queue[0], g'))
  {
    hide LaneOk;
    var l := s.actors[a].lanes[r];
    var m := l.queue[0];
    Front(s, a, r);
    var t := SetMsg(SetActor(s, a, x'), m, g');
    forall b, q | b in t.actors && q in t.actors[b].lanes
      ensures LaneOk(t, b, q, t.actors[b].lanes[q])
    {
      assert LaneOk(s, b, q, s.actors[b].lanes[q]);
      if b == a && q == r { PoppedLane(s, t, a, r); } else { OtherLane(s, t, m, b, q); }
    }
  }

  /** In a duplicate-free history the oldest queued message occurs once. */
  lemma FrontOnce(l: Lane)
    requires l.enqueued == l.began + l.dropped + l.queue && Distinct(l.enqueued) && l.queue != []
    ensures l.queue[0] !in l.began && l.queue[0] !in l.dropped && l.queue[0] !in l.queue[1..]
    ensures l.queue == [l.queue[0]] + l.queue[1..]
  {
    var k := |l.began| + |l.dropped|;
    assert l.enqueued[k] == l.queue[0];
    assert forall i :: 0 <= i < |l.began| ==> l.began[i] == l.enqueued[i];
    assert forall i :: 0 <= i < |l.dropped| ==> l.dropped[i] == l.enqueued[|l.began| + i];
    assert forall i :: 0 < i < |l.queue| ==> l.queue[i] == l.enqueued[k + i];
  }

  lemma PoppedLane(s: System, t: System, a: ActorId, r: RoleId)
    requires Exists(s, a, r) && LaneOk(s, a, r, s.actors[a].lanes[r]) && s.actors[a].lanes[r].queue != []
    requires var m := s.actors[a].lanes[r].queue[0];
             && m in s.msgs && m in t.msgs && t.msgs == s.msgs[m := t.msgs[m]]
             && t.msgs[m].to == a && t.msgs[m].role == r
    ensures var l := s.actors[a].lanes[r]; var m := l.queue[0];
            && (t.msgs[m].stage.InHandler? && l.dropped == [] ==> LaneOk(t, a, r, Pop(l)))
            && (t.msgs[m].stage.Discarded? ==>
                  LaneOk(t, a, r, l.(queue := l.queue[1..], dropped := l.dropped + [m])))
  {
    var l := s.actors[a].lanes[r];
    FrontOnce(l);
    if l.dropped == [] {
      assert l.began + l.dropped + l.queue == (l.began + [l.queue[0]]) + l.dropped + l.queue[1..];
    }
    assert l.began + l.dropped + l.queue == l.began + (l.dropped + [l.queue[0]]) + l.queue[1..];
  }

  lemma CountQuiet(s: System, a: ActorId, d: int)
    requires a in s.actors
    ensures LanesQuiet(s, Count(s, a, d))
  {}

  lemma RefusedQuiet(s: System, m: MsgId)
    requires Rooted(s, m) && s.msgs[m].stage.OwnsDestination() && !Accepting(s.actors[s.msgs[m].to])
    ensures LanesQuiet(s, Submit(s, m))
  {}

  lemma SubmitKeepsLanes(s: System, m: MsgId)
    requires LanesOk(s) && Rooted(s, m) && s.msgs[m].stage.OwnsDestination()
    ensures LanesOk(Submit(s, m))
  {
    hide LanesOk, LaneOk, LanesQuiet;
    var g := s.msgs[m];
    var x := s.actors[g.to];
    if Accepting(x) {
      var g' := g.(stage := Queued, caster := if g.caster.Unsent? then Waiting else g.caster);
      var t := SetMsg(SetActor(s, g.to, Push(x, g.role, m)), m, g');
      PushLane(s, m, g');
      CountQuiet(t, g.to, -1);
      QuietLanes(t, Submit(s, m));
    } else {
      RefusedQuiet(s, m);
      QuietLanes(s, Submit(s, m));
    }
  }

  lemma ReplyKeepsLanes(s: System, m: MsgId, v: Value, n: MsgId)
    requires LanesOk(s) && Rooted(s, m) && s.msgs[m].stage.InHandler? && n !in s.msgs
    ensures LanesOk(SendReply(s, m, v, n))
  {
    hide LanesOk;
    var g := s.msgs[m];
    if g.path.Mailbox? {
      var s1 := SetMsg(s, m, g.(stage := Handled(v), child := Some(n)));
      var s2 := SetMsg(s1, n, NewMsg(g.path.to, g.path.role, Converted(v), Spawned(true), Some(m)));
      QuietLanes(s, s2);
      SubmitKeepsLanes(s2, n);
    } else {
      QuietLanes(s, SendReply(s, m, v, n));
    }
  }

  lemma FeedKeepsLanes(s: System, f: FeederId, m: MsgId, p: Payload)
    requires LanesOk(s) && f in s.feeders && m !in s.msgs && Exists(s, s.feeders[f].to, s.feeders[f].role)
    ensures LanesOk(Feed(s, f, m, p))
  {
    hide LanesOk;
    var d := s.feeders[f];
    var s1 := Count(SetMsg(s, m, NewMsg(d.to, d.role, p, Spawned(true), None)), d.to, 1);
    QuietLanes(s, s1);
    SubmitKeepsLanes(s1, m);
    QuietLanes(Submit(s1, m), Feed(s, f, m, p));
  }

  lemma HandleKeepsLanes(s: System, u: HandleEvent)
    requires LanesOk(s) && HandleEnabled(s, u)
    ensures LanesOk(ApplyHandle(s, u))
  {
    hide LanesOk;
    QuietLanes(s, ApplyHandle(s, u));
  }

  lemma EnvelopeQuiet(s: System, v: EnvelopeEvent)
    requires EnvelopeEnabled(s, v) && !v.PollSend? && !(v.PollCaster? && s.msgs[v.m].caster.Unsent?)
    requires v.DropCaster? && s.msgs[v.m].caster.Unsent? ==> s.msgs[v.m].stage.Casting?
    ensures LanesQuiet(s, ApplyEnvelope(s, v))
  {}

  lemma EnvelopeKeepsLanes(s: System, v: EnvelopeEvent)
    requires LanesOk(s) && MsgsOk(s) && EnvelopeEnabled(s, v)
    ensures LanesOk(ApplyEnvelope(s, v))
  {
    hide LanesOk, LanesQuiet, Submit;
    if v.PollSend? || (v.PollCaster? && s.msgs[v.m].caster.Unsent?) {
      SubmitKeepsLanes(s, v.m);
    } else {
      EnvelopeQuiet(s, v);
      QuietLanes(s, ApplyEnvelope(s, v));
    }
  }

  lemma TaskKeepsLanes(s: System, t: TaskEvent)
    requires LanesOk(s) && TaskEnabled(s, t)
    ensures LanesOk(ApplyTask(s, t))
  {
    hide LanesOk;
    match t
    case HelperSends(m) => SubmitKeepsLanes(s, m);
    case HelperDies(m) => QuietLanes(s, ApplyTask(s, t));
    case FeedItem(f, m, data) => FeedKeepsLanes(s, f, m, Arguments(data));
    case FeedEnds(f) => QuietLanes(s, ApplyTask(s, t));
  }

  /** A change of one actor's record that leaves its mailboxes alone. */
  lemma SetActorKeepsLanes(s: System, a: ActorId, x: Actor)
    requires LanesOk(s) && a in s.actors && x.lanes == s.actors[a].lanes
    ensures LanesOk(SetActor(s, a, x))
  {
    hide LanesOk;
    QuietLanes(s, SetActor(s, a, x));
  }

  lemma CrashKeepsLanes(s: System, m: MsgId)
    requires LanesOk(s) && Rooted(s, m) && s.msgs[m].stage.InHandler?
    ensures LanesOk(Destroy(s, m, Crashed))
  {
    hide LanesOk;
    QuietLanes(s, Destroy(s, m, Crashed));
  }

  lemma HandlerKeepsLanes(s: System, a: ActorId, h: HandlerEvent)
    requires LanesOk(s) && HandlerEnabled(s, a, h) && ActsOnCurrent(s, a, h)
    ensures LanesOk(ApplyHandler(s, a, h))
  {
    hide LanesOk;
    var x := s.actors[a];
    match h
    case GetShell => SetActorKeepsLanes(s, a, x.(strong := x.strong + 1, external := x.external + 1));
    case StopCalled => SetActorKeepsLanes(s, a, x.(running := false));
    case Awaits(m) => SetActorKeepsLanes(s, a, x.(awaiting := Some(m)));
    case Resumes => SetActorKeepsLanes(s, a, x.(awaiting := None));
    case Returned(st, v) => SetActorKeepsLanes(s, a, Return(x, st, v));
    case Panics(st) =>
      SetActorKeepsLanes(s, a, Crash(x, st));
      CrashKeepsLanes(SetActor(s, a, Crash(x, st)), x.phase.msg);
    case Replied(n) =>
      SetActorKeepsLanes(s, a, x.(phase := LoopTop));
      ReplyKeepsLanes(SetActor(s, a, x.(phase := LoopTop)), x.phase.msg, x.phase.value, n);
  }

  lemma ThrowKeepsLanes(s: System, a: ActorId, r: RoleId)
    requires LanesOk(s) && LoopEnabled(s, a, QueueDropped(r)) && TakesQueued(s, a, QueueDropped(r))
    ensures LanesOk(ApplyLoop(s, a, QueueDropped(r)))
  {
    hide LanesOk;
    var x := s.actors[a];
    var m := x.lanes[r].queue[0];
    var g := s.msgs[m];
    var g' := g.(stage := Discarded, cell := if g.path.Immediate? then Broken else g.cell);
    PopLane(s, a, r, DropFront(x, r), g');
    QuietLanes(SetMsg(SetActor(s, a, DropFront(x, r)), m, g'), ApplyLoop(s, a, QueueDropped(r)));
  }

  lemma LoopKeepsLanes(s: System, a: ActorId, l: LoopEvent)
    requires LanesOk(s) && LoopEnabled(s, a, l) && LoopOk(s.actors[a], s.now) && TakesQueued(s, a, l)
    ensures LanesOk(ApplyLoop(s, a, l))
  {
    hide LanesOk;
    var x := s.actors[a];
    match l
    case Received(r) =>
      PopLane(s, a, r, Receive(x, r, s.now), s.msgs[x.lanes[r].queue[0]].(stage := InHandler));
    case QueueDropped(r) => ThrowKeepsLanes(s, a, r);
    case FirstPolled => SetActorKeepsLanes(s, a, FirstPoll(x, s.now));
    case ReadGuards => SetActorKeepsLanes(s, a, Guards(x));
    case ReceivedNone(r) => SetActorKeepsLanes(s, a, ReceiveNone(x, r));
    case TimerFired => SetActorKeepsLanes(s, a, Timer(x, s.now));
    case HookReturned => SetActorKeepsLanes(s, a, x.(phase := Closing(x.phase.exit)));
    case TaskEnded =>
      var x' := x.(phase := Dead(x.phase.exit));
      SetActorKeepsLanes(s, a, x');
      SetActorKeepsLanes(SetActor(s, a, x'), a, x'.(strong := x'.strong - 1));
  }

  lemma KeepsLanes(s: System, e: Event)
    requires MsgsOk(s) && HandlersOk(s) && LanesOk(s) && LoopsOk(s) && Enabled(s, e)
    ensures LanesOk(Apply(s, e))
  {
    hide LanesOk;
    match e
    case Tick => QuietLanes(s, Apply(s, e));
    case Handle(u) => HandleKeepsLanes(s, u);
    case Envelope(v) => EnvelopeKeepsLanes(s, v);
    case Task(t) => TaskKeepsLanes(s, t);
    case Handler(a, h) => HandlerActsOnCurrent(s, a, h); HandlerKeepsLanes(s, a, h);
    case Loop(a, l) =>
      assert LoopOk(s.actors[a], s.now);
      LoopTakesQueued(s, a, l);
      LoopKeepsLanes(s, a, l);
  }
}
