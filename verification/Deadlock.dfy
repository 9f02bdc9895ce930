/** Handlers that await each other in a circle never get out; a loop that is not blocked can always go on. */
module Deadlock {
  import opened Types
  import opened ActorSteps
  import opened Runtime
  import opened Ownership
  import opened Invariants
  import opened MessageProofs
  import opened MessageShapes
  import opened StructureProofs
  import opened LoopProofs
  import opened Reachability
  import opened Delivery
  import opened Lifetime
  import opened Drain

  /** a's handler awaits the reply to w, which is still queued at another member of the circle. */
  predicate BlockedIn(s: System, circle: set<ActorId>, a: ActorId) {
    a in s.actors && s.actors[a].phase.Handling? && s.actors[a].awaiting.Some?
    && var w := s.actors[a].awaiting.value;
    w in s.msgs && s.msgs[w].caster.Waiting? && s.msgs[w].stage.Queued? && s.msgs[w].to in circle
  }

  ghost predicate Circular(s: System, circle: set<ActorId>) {
    forall a <- circle :: BlockedIn(s, circle, a)
  }

  /** A caster a handler is blocked on stays pending while its message is queued. */
  lemma EnvelopeKeepsWaiting(s: System, v: EnvelopeEvent, a: ActorId, w: MsgId)
    requires EnvelopeEnabled(s, v) && w in s.msgs && MsgOk(s.msgs[w])
    requires s.msgs[w].caster.Waiting? && s.msgs[w].stage.Queued?
    requires a in s.actors && s.actors[a].awaiting == Some(w)
    ensures w in ApplyEnvelope(s, v).msgs && ApplyEnvelope(s, v).msgs[w].caster.Waiting?
  {}

  lemma TaskKeepsWaiting(s: System, t: TaskEvent, w: MsgId)
    requires TaskEnabled(s, t) && w in s.msgs && s.msgs[w].stage.Queued?
    ensures w in ApplyTask(s, t).msgs && ApplyTask(s, t).msgs[w].caster == s.msgs[w].caster
  {}

  lemma HandlerKeepsWaiting(s: System, a: ActorId, h: HandlerEvent, w: MsgId)
    requires HandlerEnabled(s, a, h) && w in s.msgs
    ensures w in ApplyHandler(s, a, h).msgs && ApplyHandler(s, a, h).msgs[w].caster == s.msgs[w].caster
  {}

  lemma LoopKeepsWaiting(s: System, a: ActorId, l: LoopEvent, w: MsgId)
    requires LoopEnabled(s, a, l) && w in s.msgs
    ensures w in ApplyLoop(s, a, l).msgs && ApplyLoop(s, a, l).msgs[w].caster == s.msgs[w].caster
  {}

  lemma HandleKeepsWaiting(s: System, u: HandleEvent, w: MsgId)
    requires HandleEnabled(s, u) && w in s.msgs
    ensures w in ApplyHandle(s, u).msgs && ApplyHandle(s, u).msgs[w].caster == s.msgs[w].caster
  {}

  lemma StepKeepsWaiting(s: System, e: Event, a: ActorId, w: MsgId)
    requires Reachable(s) && Enabled(s, e) && w in s.msgs
    requires s.msgs[w].caster.Waiting? && s.msgs[w].stage.Queued?
    requires a in s.actors && s.actors[a].awaiting == Some(w)
    ensures w in Apply(s, e).msgs && Apply(s, e).msgs[w].caster.Waiting?
  {
    hide Reachable, ApplyHandle, ApplyEnvelope, ApplyTask, ApplyHandler, ApplyLoop;
    MsgAt(s, w);
    match e
    case Tick =>
    case Handle(u) => HandleKeepsWaiting(s, u, w);
    case Envelope(v) => EnvelopeKeepsWaiting(s, v, a, w);
    case Task(t) => TaskKeepsWaiting(s, t, w);
    case Handler(b, h) => HandlerKeepsWaiting(s, b, h, w);
    case Loop(b, l) => LoopKeepsWaiting(s, b, l, w);
  }

  /** No event of a blocked actor's own can happen. */
  lemma BlockedDoesNothing(s: System, e: Event, circle: set<ActorId>, a: ActorId)
    requires Enabled(s, e) && BlockedIn(s, circle, a)
    ensures !((e.Handler? || e.Loop?) && e.a == a)
  {}

  lemma CircleStep(s: System, e: Event, circle: set<ActorId>, a: ActorId)
    requires Reachable(s) && Enabled(s, e) && BlockedIn(s, circle, a)
    requires BlockedIn(s, circle, s.msgs[s.actors[a].awaiting.value].to)
    ensures BlockedIn(Apply(s, e), circle, a)
    ensures Apply(s, e).actors[a].order == s.actors[a].order && Apply(s, e).actors[a].log == s.actors[a].log
  {
    hide Reachable, Apply;
    var w := s.actors[a].awaiting.value;
    BlockedDoesNothing(s, e, circle, a);
    ActorShape(s, e, a);
    StepKeepsWaiting(s, e, a, w);
    AwaitedStaysQueued(s, e, circle, w);
  }

  /** A message queued at a blocked actor stays queued there. */
  lemma AwaitedStaysQueued(s: System, e: Event, circle: set<ActorId>, w: MsgId)
    requires Reachable(s) && Enabled(s, e) && w in s.msgs && s.msgs[w].stage.Queued?
    requires BlockedIn(s, circle, s.msgs[w].to)
    ensures w in Apply(s, e).msgs && Apply(s, e).msgs[w].stage.Queued? && Apply(s, e).msgs[w].to == s.msgs[w].to
  {
    hide Reachable, Apply, MsgsOk, LanesOk, HandlersOk, WellFormed;
    PartsAt(s);
    BlockedDoesNothing(s, e, circle, s.msgs[w].to);
    if e.Loop? { LoopTakesQueued(s, e.a, e.l); }
    if e.Handler? { HandlerActsOnCurrent(s, e.a, e.h); }
    MsgShape(s, e, w);
  }

  /** A circle of awaiting handlers never breaks: no member ever begins or completes a handler again. */
  lemma {:induction false} CircleIsPermanent(s: System, es: seq<Event>, circle: set<ActorId>)
    requires Reachable(s) && Valid(s, es) && Circular(s, circle)
    ensures Circular(Final(s, es), circle)
    ensures forall a <- circle :: a in s.actors && a in Final(s, es).actors
              && Final(s, es).actors[a].order == s.actors[a].order && Final(s, es).actors[a].log == s.actors[a].log
    decreases |es|
  {
    hide Reachable, Apply, Enabled;
    if es != [] {
      var t := Apply(s, es[0]);
      forall a | a in circle
        ensures BlockedIn(t, circle, a) && t.actors[a].order == s.actors[a].order && t.actors[a].log == s.actors[a].log
      {
        assert BlockedIn(s, circle, a);
        CircleStep(s, es[0], circle, a);
      }
      StepReachable(s, es[0]);
      CircleIsPermanent(t, es[1..], circle);
    }
  }

  /** The only way for a loop with a non-empty mailbox to be stuck is a handler blocked on a reply. */
  lemma LoopCanGoOn(s: System, a: ActorId, r: RoleId, n: MsgId, st: UserState, v: Value)
    requires Reachable(s) && Exists(s, a, r) && s.actors[a].lanes[r].queue != [] && n !in s.msgs
    requires s.actors[a].phase.InLoop() && s.actors[a].awaiting.None?
    ensures match s.actors[a].phase
            case LoopTop => LoopEnabled(s, a, ReadGuards) && !Guards(s.actors[a]).phase.Finalizing?
            case Select(_, _) => exists q :: LoopEnabled(s, a, Received(q))
            case Handling(_) => HandlerEnabled(s, a, Returned(st, v))
            case _ => HandlerEnabled(s, a, Replied(n))
  {
    hide Reachable;
    var x := s.actors[a];
    LoopAt(s, a);
    match x.phase
    case LoopTop => assert r in EnabledRoles(x);
    case Select(enabled, timer) =>
      var q := if timer then r else (var q :| q in enabled; q);
      FrontRooted(s, a, q);
      assert LoopEnabled(s, a, Received(q));
    case Handling(_) =>
    case _ => CurrentRooted(s, a);
  }

  predicate NeverAwaits(es: seq<Event>, a: ActorId) {
    forall e <- es :: !(e.Handler? && e.a == a && e.h.Awaits?)
  }

  lemma StepNotAwaiting(s: System, e: Event, a: ActorId)
    requires Enabled(s, e) && NeverAwaits([e], a) && a in Apply(s, e).actors
    requires a in s.actors ==> s.actors[a].awaiting.None?
    ensures Apply(s, e).actors[a].awaiting.None?
  {
    hide Apply;
    assert e in [e];
    if a in s.actors { ActorShape(s, e, a); } else { Started(s, e, a); }
  }

  lemma {:induction false} NotAwaiting(s: System, es: seq<Event>, a: ActorId)
    requires Valid(s, es) && NeverAwaits(es, a) && (a in s.actors ==> s.actors[a].awaiting.None?)
    ensures a in Final(s, es).actors ==> Final(s, es).actors[a].awaiting.None?
    decreases |es|
  {
    hide Apply, Enabled;
    if es != [] {
      if a in Apply(s, es[0]).actors { StepNotAwaiting(s, es[0], a); }
      NotAwaiting(Apply(s, es[0]), es[1..], a);
    }
  }

  /**
   * An actor whose handlers never block on a reply, but forward, ignore or drop them, is never stuck: whenever a
   * message waits while its loop runs, an own step of its is possible. The run may begin before the actor is started.
   */
  lemma LoopAlwaysGoesOn(s: System, es: seq<Event>, a: ActorId, r: RoleId, n: MsgId, st: UserState, v: Value)
    requires Reachable(s) && Valid(s, es) && NeverAwaits(es, a) && (a in s.actors ==> s.actors[a].awaiting.None?)
    requires var t := Final(s, es);
             n !in t.msgs && Exists(t, a, r) && t.actors[a].lanes[r].queue != [] && t.actors[a].phase.InLoop()
    ensures exists e :: Enabled(Final(s, es), e) && Progress(e, a)
  {
    hide Reachable, Valid, Final;
    var t := Final(s, es);
    NotAwaiting(s, es, a);
    RunReachable(s, es);
    LoopCanGoOn(t, a, r, n, st, v);
    match t.actors[a].phase
    case LoopTop => assert Progress(Loop(a, ReadGuards), a);
    case Select(_, _) => var q :| LoopEnabled(t, a, Received(q)); assert Progress(Loop(a, Received(q)), a);
    case Handling(_) => assert Progress(Handler(a, Returned(st, v)), a);
    case Replying(_, _) => assert Progress(Handler(a, Replied(n)), a);
    case _ =>
  }
}
