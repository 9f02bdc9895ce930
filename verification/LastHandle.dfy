/** An actor that was not stopped and has lost its last handle, with any number of messages still queued. */
module LastHandle {
  import opened Types
  import opened ActorSteps
  import opened Runtime
  import opened Ownership
  import opened Invariants
  import opened MessageProofs
  import opened MessageShapes
  import opened StructureProofs
  import opened Reachability
  import opened Delivery
  import opened Lifetime
  import opened Drain

  /** In its loop, with no handle but the Context's own. */
  predicate Alone(s: System, a: ActorId) {
    a in s.actors && s.actors[a].phase.InLoop() && s.actors[a].strong == 1
  }

  /** The actor's own handlers make no new handle of it. */
  predicate MakesNoHandle(es: seq<Event>, a: ActorId) {
    Handler(a, GetShell) !in es
  }

  lemma HandlerAlone(s: System, a: ActorId, h: HandlerEvent)
    requires HandlerEnabled(s, a, h) && ActsOnCurrent(s, a, h) && Unreachable(s, a) && !h.GetShell?
    ensures a in ApplyHandler(s, a, h).actors && ApplyHandler(s, a, h).actors[a] == OwnHandler(s.actors[a], h)
  {}

  lemma LoopAlone(s: System, a: ActorId, l: LoopEvent)
    requires LoopEnabled(s, a, l) && s.actors[a].phase.InLoop()
    ensures a in ApplyLoop(s, a, l).actors && ApplyLoop(s, a, l).actors[a] == OwnLoop(s, a, l)
  {}

  /** Nothing reaches the actor any more: an event does to it what it does itself, and nothing else. */
  lemma OnlyOwn(s: System, e: Event, a: ActorId)
    requires Reachable(s) && Enabled(s, e) && Alone(s, a) && e != Handler(a, GetShell)
    ensures a in Apply(s, e).actors && Apply(s, e).actors[a] == Own(s, e, a)
  {
    hide Reachable, HandlersOk, MsgsOk, LanesOk, WellFormed, Unreachable, ActsOnCurrent;
    hide ApplyHandler, ApplyLoop, ApplyHandle, ApplyEnvelope, ApplyTask;
    LastHandleGone(s, a);
    PartsAt(s);
    if e.Handler? && e.a == a {
      HandlerActsOnCurrent(s, a, e.h);
      HandlerAlone(s, a, e.h);
    } else if e.Loop? && e.a == a {
      LoopAlone(s, a, e.l);
    } else {
      Untouched(s, e, a);
    }
  }

  /** What one event makes of such an actor. */
  predicate AloneShape(x: Actor, y: Actor, e: Event, a: ActorId, now: nat) {
    && y.strong == 1 && y.lanes.Keys == x.lanes.Keys
    && (forall r <- x.lanes :: y.lanes[r].enqueued == x.lanes[r].enqueued)
    && |y.order| == |x.order| + (if e.Loop? && e.a == a && e.l.Received? then 1 else 0)
    && (e.Loop? && e.a == a && e.l.Received? ==> Progress(e, a) && y.phase.Handling?)
    && (Progress(e, a) ==> y.phase.Finalizing? || Rank(y.phase) == Rank(x.phase) - 1
                           || (e.Loop? && e.l.Received? && x.phase.Select? && y.phase.Handling?))
    && (!Progress(e, a) ==> y.phase == x.phase || y.phase.Finalizing?)
    && (y.phase.Finalizing? || y.phase.InLoop())
    && (y.phase.Select? && y.phase.timer ==> y == x && !Progress(e, a))
    && (y.phase.Finalizing? && !y.phase.exit.Panicked? ==>
          if y.phase.exit.Drained? then e == Loop(a, ReadGuards) && AllEmpty(x) && x.phase.LoopTop?
          else e == Loop(a, TimerFired) && x.phase.Select? && x.phase.timer && now >= x.deadline)
  }

  lemma OwnLoopShape(s: System, a: ActorId, l: LoopEvent)
    requires LoopEnabled(s, a, l) && Alone(s, a) && LoopOk(s.actors[a], s.now)
    ensures AloneShape(s.actors[a], OwnLoop(s, a, l), Loop(a, l), a, s.now)
  {
    GuardsDrained(s.actors[a]);
  }

  lemma OwnHandlerShape(s: System, a: ActorId, h: HandlerEvent)
    requires HandlerEnabled(s, a, h) && Alone(s, a) && LoopOk(s.actors[a], s.now)
    ensures AloneShape(s.actors[a], OwnHandler(s.actors[a], h), Handler(a, h), a, s.now)
  {}

  lemma OwnShape(s: System, e: Event, a: ActorId)
    requires Enabled(s, e) && Alone(s, a) && LoopOk(s.actors[a], s.now)
    ensures AloneShape(s.actors[a], Own(s, e, a), e, a, s.now)
  {
    hide LoopEnabled, HandlerEnabled, OwnLoop, OwnHandler, LoopOk;
    if e.Loop? && e.a == a { OwnLoopShape(s, a, e.l); }
    if e.Handler? && e.a == a { OwnHandlerShape(s, a, e.h); }
  }

  lemma AloneEvent(s: System, e: Event, a: ActorId)
    requires Reachable(s) && Enabled(s, e) && Alone(s, a) && e != Handler(a, GetShell)
    ensures a in Apply(s, e).actors && AloneShape(s.actors[a], Apply(s, e).actors[a], e, a, s.now)
  {
    hide Reachable, Apply, Enabled, Own, AloneShape;
    LoopAt(s, a);
    OnlyOwn(s, e, a);
    OwnShape(s, e, a);
  }

  lemma SameArrivals(x: Actor, y: Actor)
    requires y.lanes.Keys == x.lanes.Keys && forall r <- x.lanes :: y.lanes[r].enqueued == x.lanes[r].enqueued
    ensures Arrived(y) == Arrived(x)
  {
    SumSame(x.lanes.Keys, ArrivalCount(x.lanes), ArrivalCount(y.lanes));
  }

  /** Each own step uses up one of the budget, and nothing adds to it. */
  lemma AloneBudget(s: System, e: Event, a: ActorId)
    requires Reachable(s) && Enabled(s, e) && Alone(s, a) && e != Handler(a, GetShell)
    requires a in Apply(s, e).actors && Apply(s, e).actors[a].phase.InLoop()
    ensures Alone(Apply(s, e), a)
    ensures Budget(Apply(s, e).actors[a]) + (if Progress(e, a) then 1 else 0) == Budget(s.actors[a])
  {
    hide Reachable, Apply, Enabled, Backlog, Arrived;
    AloneEvent(s, e, a);
    SameArrivals(s.actors[a], Apply(s, e).actors[a]);
    StepReachable(s, e);
    Balance(s, a);
    Balance(Apply(s, e), a);
  }

  /**
   * Once the last handle is gone, nothing more arrives, and as long as its handlers make no new handle the loop's own
   * steps are bounded by what is queued. It waits with its timer on only in a select! that it had entered before.
   */
  lemma {:induction false} AloneDrains(s: System, es: seq<Event>, a: ActorId)
    requires Reachable(s) && Valid(s, es) && Alone(s, a) && MakesNoHandle(es, a)
    requires a in Final(s, es).actors && Final(s, es).actors[a].phase.InLoop()
    ensures Alone(Final(s, es), a)
    ensures ProgressCount(es, a) + Budget(Final(s, es).actors[a]) == Budget(s.actors[a])
    ensures var x, y := s.actors[a], Final(s, es).actors[a];
            && y.lanes.Keys == x.lanes.Keys && (forall r <- x.lanes :: y.lanes[r].enqueued == x.lanes[r].enqueued)
            && (y.phase.Select? && y.phase.timer ==> y == x)
    decreases |es|
  {
    hide Reachable, Apply, Enabled, Budget, Progress;
    if es != [] {
      var t := Apply(s, es[0]);
      assert es[0] in es && forall e <- es[1..] :: e in es;
      AloneEvent(s, es[0], a);
      StepReachable(s, es[0]);
      if t.actors[a].phase.Finalizing? {
        NeverBack(t, es[1..], a);
      } else {
        AloneBudget(s, es[0], a);
        AloneDrains(t, es[1..], a);
      }
    }
  }

  /**
   * How such an actor's loop ends, unless a handler panics. With k messages queued when the last handle goes, either
   * exactly k further handlers begin, every begun one completes, and the loop breaks through `else` with every mailbox
   * handled in order and without the timer; or its timer ends it in the select! it was waiting in when the last handle
   * went, with nothing of it changed since.
   */
  lemma AloneEnds(s: System, es: seq<Event>, e: Event, a: ActorId)
    requires Reachable(s) && Valid(s, es) && Alone(s, a) && MakesNoHandle(es, a)
    requires a in Final(s, es).actors && Final(s, es).actors[a].phase.InLoop()
    requires Enabled(Final(s, es), e) && a in Apply(Final(s, es), e).actors
    requires Apply(Final(s, es), e).actors[a].phase.Finalizing?
    requires !Apply(Final(s, es), e).actors[a].phase.exit.Panicked?
    ensures var x, y := s.actors[a], Final(s, es).actors[a];
            if Apply(Final(s, es), e).actors[a].phase.exit.Drained? then
              && |y.order| == |x.order| + Backlog(x) && |y.log| == |y.order| && AllEmpty(y)
              && y.lanes.Keys == x.lanes.Keys
              && (forall r <- x.lanes :: y.lanes[r].began == y.lanes[r].enqueued == x.lanes[r].enqueued)
            else
              && e == Loop(a, TimerFired) && y == x && x.phase.Select? && x.phase.timer
              && Final(s, es).now >= x.deadline
  {
    hide Reachable, Apply, Enabled, Valid, Final, Budget, Arrived, Backlog, AloneShape;
    var t := Final(s, es);
    RunReachable(s, es);
    AloneDrains(s, es, a);
    assert e != Handler(a, GetShell) by { GetShellStays(t, e, a); }
    AloneEvent(t, e, a);
    LastStep(t.actors[a], Apply(t, e).actors[a], e, a, t.now);
    if Apply(t, e).actors[a].phase.exit.Drained? {
      Balance(s, a);
      Balance(t, a);
      SameArrivals(s.actors[a], t.actors[a]);
      NoneQueued(t.actors[a]);
      ActorAt(t, a);
      forall r | r in s.actors[a].lanes ensures t.actors[a].lanes[r].began == t.actors[a].lanes[r].enqueued {
        Fifo(t, a, r);
      }
    }
  }

  lemma LastStep(x: Actor, y: Actor, e: Event, a: ActorId, now: nat)
    requires AloneShape(x, y, e, a, now) && y.phase.Finalizing? && !y.phase.exit.Panicked?
    ensures if y.phase.exit.Drained? then AllEmpty(x) && x.phase.LoopTop?
            else e == Loop(a, TimerFired) && x.phase.Select? && x.phase.timer && now >= x.deadline
  {}

  lemma GetShellStays(s: System, e: Event, a: ActorId)
    requires Enabled(s, e) && a in s.actors && s.actors[a].phase.InLoop()
    requires a in Apply(s, e).actors && Apply(s, e).actors[a].phase.Finalizing?
    ensures e != Handler(a, GetShell)
  {}
}
