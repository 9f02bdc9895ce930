/** Every step keeps each actor's loop and its history in order, and every name defined. */
module LoopProofs {
  import opened Types
  import opened ActorSteps
  import opened Runtime
  import opened Ownership
  import opened Invariants
  import opened MessageProofs
  import opened MessageShapes
  import opened StructureProofs

  // ---- LoopsOk ----

  lemma OutsideLoop(x: Actor, x': Actor, now: nat)
    requires LoopOk(x, now) && Outside(x, x')
    ensures LoopOk(x', now)
  {
    assert forall r <- x.lanes :: Appended(x.lanes[r], x'.lanes[r]);
    if x.phase.Dead? { assert AllEmpty(x'); }
  }

  /** The Context's own handle: a task that has not ended keeps its senders alive. */
  lemma Alive(s: System, a: ActorId)
    requires Counted(s) && a in s.actors && !s.actors[a].phase.Dead?
    ensures s.actors[a].strong >= 1
  {
    assert CountExact(s, a);
  }

  lemma OwnLoopOk(s: System, a: ActorId, l: LoopEvent)
    requires LoopEnabled(s, a, l) && LoopOk(s.actors[a], s.now)
    requires s.actors[a].lanes.Keys != {} && s.actors[a].strong >= 1
    ensures LoopOk(OwnLoop(s, a, l), s.now)
  {
    var x := s.actors[a];
    match l
    case ReadGuards =>
      if IsRunning(x) { assert EnabledRoles(x) == x.lanes.Keys; }
    case _ =>
  }

  lemma OwnHandlerOk(x: Actor, h: HandlerEvent, now: nat)
    requires LoopOk(x, now)
    requires h.Replied? ==> x.phase.Replying?
    requires h.StopCalled? || h.Returned? || h.Panics? || h.Awaits? ==> HandlerFree(x)
    ensures LoopOk(OwnHandler(x, h), now)
  {}

  lemma StepLoop(s: System, e: Event, b: ActorId)
    requires Enabled(s, e) && b in s.actors && LoopOk(s.actors[b], s.now)
    requires s.actors[b].lanes.Keys != {} && (!s.actors[b].phase.Dead? ==> s.actors[b].strong >= 1)
    ensures b in Apply(s, e).actors && LoopOk(Apply(s, e).actors[b], s.now)
  {
    ActorShape(s, e, b);
    if e.Loop? && e.a == b { OwnLoopOk(s, b, e.l); }
    if e.Handler? && e.a == b { OwnHandlerOk(s.actors[b], e.h, s.now); }
    OutsideLoop(Own(s, e, b), Apply(s, e).actors[b], s.now);
  }

  lemma StartLoop(roles: set<RoleId>, init: UserState, now: nat)
    ensures LoopOk(NewActor(roles, init), now) && HistoryOk(NewActor(roles, init))
  {}

  /** The record of an actor that was not there before. */
  lemma Started(s: System, e: Event, b: ActorId)
    requires Enabled(s, e) && b in Apply(s, e).actors && b !in s.actors
    ensures e.Handle? && e.u.Start? && e.u.a == b && e.u.roles != {}
    ensures Apply(s, e).actors[b] == NewActor(e.u.roles, e.u.init)
  {
    ActorSet(s, e);
  }

  lemma KeepsLoops(s: System, e: Event)
    requires WellFormed(s) && MsgsOk(s) && Counted(s) && LoopsOk(s) && Enabled(s, e)
    ensures LoopsOk(Apply(s, e))
  {
    var t := Apply(s, e);
    TimeGrows(s, e);
    forall b | b in t.actors ensures LoopOk(t.actors[b], t.now) {
      if b in s.actors {
        assert LoopOk(s.actors[b], s.now);
        if !s.actors[b].phase.Dead? { Alive(s, b); }
        StepLoop(s, e, b);
      } else {
        Started(s, e, b);
        StartLoop(e.u.roles, e.u.init, t.now);
      }
    }
  }

  // ---- HistoriesOk ----

  lemma OutsideHistory(x: Actor, x': Actor)
    requires HistoryOk(x) && Outside(x, x')
    ensures HistoryOk(x')
  {
    assert forall r <- x.lanes :: Appended(x.lanes[r], x'.lanes[r]);
  }

  lemma {:induction false} ProjectAppend(order: seq<(RoleId, MsgId)>, r: RoleId, m: MsgId, r': RoleId)
    ensures Project(order + [(r, m)], r') == Project(order, r') + if r == r' then [m] else []
  {
    assert (order + [(r, m)])[..|order|] == order;
  }

  lemma ReceiveHistory(x: Actor, r: RoleId, now: nat)
    requires HistoryOk(x) && ReceiveEnabled(x, r)
    ensures HistoryOk(Receive(x, r, now))
  {
    var x' := Receive(x, r, now);
    forall r' | r' in x'.lanes ensures Project(x'.order, r') == x'.lanes[r'].began {
      ProjectAppend(x.order, r, x.lanes[r].queue[0], r');
    }
    assert Unfinished(x') && !Unfinished(x);
  }

  lemma ReturnHistory(x: Actor, st: UserState, v: Value)
    requires HistoryOk(x) && HandlerFree(x)
    ensures HistoryOk(Return(x, st, v))
  {
    hide Project;
  }

  lemma CrashHistory(x: Actor, st: UserState)
    requires HistoryOk(x) && HandlerFree(x)
    ensures HistoryOk(Crash(x, st))
  {
    hide Project;
  }

  lemma OwnHandlerHistory(x: Actor, h: HandlerEvent)
    requires HistoryOk(x)
    requires h.Replied? ==> x.phase.Replying?
    requires h.Returned? || h.Panics? ==> HandlerFree(x)
    ensures HistoryOk(OwnHandler(x, h))
  {
    hide Return, Crash, Project;
    match h
    case Returned(st, v) => ReturnHistory(x, st, v);
    case Panics(st) => CrashHistory(x, st);
    case _ =>
  }

  /** Nothing was taken out or completed, and no handler is running. */
  predicate TookNothing(x: Actor, y: Actor) {
    && y.order == x.order && y.log == x.log && y.state == x.state && y.initial == x.initial && y.fault == x.fault
    && y.lanes.Keys == x.lanes.Keys && (forall r <- x.lanes :: y.lanes[r].began == x.lanes[r].began)
    && !x.phase.Handling? && !y.phase.Handling? && !y.phase.Replying? && (Unfinished(y) <==> Unfinished(x))
  }

  lemma TookNothingHistory(x: Actor, y: Actor)
    requires HistoryOk(x) && TookNothing(x, y)
    ensures HistoryOk(y)
  {}

  lemma OwnLoopTakesNothing(s: System, a: ActorId, l: LoopEvent)
    requires LoopEnabled(s, a, l) && !l.Received?
    ensures TookNothing(s.actors[a], OwnLoop(s, a, l))
  {}

  lemma OwnLoopHistory(s: System, a: ActorId, l: LoopEvent)
    requires LoopEnabled(s, a, l) && HistoryOk(s.actors[a])
    ensures HistoryOk(OwnLoop(s, a, l))
  {
    hide HistoryOk, TookNothing;
    if l.Received? { ReceiveHistory(s.actors[a], l.r, s.now); } else {
      OwnLoopTakesNothing(s, a, l);
      TookNothingHistory(s.actors[a], OwnLoop(s, a, l));
    }
  }

  lemma StepHistory(s: System, e: Event, b: ActorId)
    requires Enabled(s, e) && b in s.actors && HistoryOk(s.actors[b])
    ensures b in Apply(s, e).actors && HistoryOk(Apply(s, e).actors[b])
  {
    ActorShape(s, e, b);
    if e.Loop? && e.a == b { OwnLoopHistory(s, b, e.l); }
    if e.Handler? && e.a == b { OwnHandlerHistory(s.actors[b], e.h); }
    OutsideHistory(Own(s, e, b), Apply(s, e).actors[b]);
  }

  lemma KeepsHistories(s: System, e: Event)
    requires HistoriesOk(s) && Enabled(s, e)
    ensures HistoriesOk(Apply(s, e))
  {
    var t := Apply(s, e);
    forall b | b in t.actors ensures HistoryOk(t.actors[b]) {
      if b in s.actors {
        assert HistoryOk(s.actors[b]);
        StepHistory(s, e, b);
      } else {
        Started(s, e, b);
        StartLoop(e.u.roles, e.u.init, t.now);
      }
    }
  }
}
