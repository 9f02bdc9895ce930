/** Nobody is stuck without a reason: what each party can do in every reachable state, and how an actor's end comes. */
module Progress {
  import opened Types
  import opened ActorSteps
  import opened Runtime
  import opened Ownership
  import opened Invariants
  import opened StructureProofs
  import opened Reachability
  import opened Delivery
  import opened Replies
  import opened Lifetime
  import opened Drain
  import opened Forwarding
  import opened Aftermath

  /**
   * An actor's own task can always take its next step, but for three reasons: it waits in select! with nothing to
   * receive until its timer is due, its handler awaits a reply, or it is dead.
   */
  lemma ActorCanStep(s: System, a: ActorId, n: MsgId, st: UserState, v: Value)
    requires Reachable(s) && a in s.actors && n !in s.msgs
    ensures var x := s.actors[a];
            match x.phase
            case Starting => LoopEnabled(s, a, FirstPolled)
            case LoopTop => LoopEnabled(s, a, ReadGuards)
            case Select(_, timer) =>
              (exists r :: LoopEnabled(s, a, Received(r)))
              || (timer && (s.now >= x.deadline ==> LoopEnabled(s, a, TimerFired)))
            case Handling(_) =>
              x.awaiting.None? ==>
                HandlerEnabled(s, a, Returned(st, v)) && HandlerEnabled(s, a, Panics(st))
                && HandlerEnabled(s, a, GetShell) && HandlerEnabled(s, a, StopCalled)
            case Replying(_, _) => HandlerEnabled(s, a, Replied(n))
            case Finalizing(_) => LoopEnabled(s, a, HookReturned)
            case Closing(_) => LoopEnabled(s, a, TaskEnded) || exists r :: LoopEnabled(s, a, QueueDropped(r))
            case Dead(_) => true
  {
    hide Reachable;
    var x := s.actors[a];
    LoopAt(s, a);
    match x.phase
    case Select(enabled, timer) =>
      if !timer {
        var r :| r in enabled;
        FrontRooted(s, a, r);
        assert LoopEnabled(s, a, Received(r));
      }
    case Handling(_) => CurrentRooted(s, a);
    case Replying(_, _) => CurrentRooted(s, a);
    case Closing(_) =>
      if !AllEmpty(x) {
        var r :| r in x.lanes && x.lanes[r].queue != [];
        FrontRooted(s, a, r);
        assert LoopEnabled(s, a, QueueDropped(r));
      }
    case _ =>
  }

  /**
   * A message that has not been sent can be, by whoever holds it: at the first poll of its future, or by its helper.
   * While nothing has been decided about it, it can also be awaited, forwarded to any actor the caller has a handle of,
   * or dropped.
   */
  lemma MessageCanGo(s: System, m: MsgId, b: ActorId, br: RoleId)
    requires Reachable(s) && m in s.msgs
    ensures match s.msgs[m].stage
            case Held =>
              EnvelopeEnabled(s, PollSend(m)) && EnvelopeEnabled(s, DropEnvelope(m))
              && (s.msgs[m].path.Discard? ==>
                    EnvelopeEnabled(s, IntoFuture(m))
                    && (HasHandle(s, b) && Exists(s, b, br) ==> EnvelopeEnabled(s, ForwardTo(m, b, br))))
            case Casting => EnvelopeEnabled(s, PollCaster(m))
            case Spawned(ready) => TaskEnabled(s, HelperSends(m)) && (TaskEnabled(s, HelperDies(m)) <==> !ready)
            case _ => true
    ensures s.msgs[m].caster.Unsent? || s.msgs[m].caster.Waiting? ==>
              EnvelopeEnabled(s, PollCaster(m))
              && (EnvelopeEnabled(s, DropCaster(m)) <==> forall a <- s.actors :: s.actors[a].awaiting != Some(m))
  {
    hide Reachable;
    MsgAt(s, m);
  }

  /** A live feeder can take its next item, and can end. */
  lemma FeederCanGo(s: System, f: FeederId, m: MsgId, data: Data)
    requires Reachable(s) && f in s.feeders && m !in s.msgs
    ensures TaskEnabled(s, FeedItem(f, m, data)) <==> s.feeders[f].live
    ensures TaskEnabled(s, FeedEnds(f)) <==> s.feeders[f].live
  {
    hide Reachable;
    FeederAt(s, f);
  }

  /** Whoever has a handle of an actor can use it in every way; a clone is one more owner until it is dropped. */
  lemma HandleCanBeUsed(s: System, a: ActorId, r: RoleId, m: MsgId, f: FeederId, data: Data)
    requires Reachable(s) && a in s.actors && s.actors[a].external > 0 && r in s.actors[a].lanes
    requires m !in s.msgs && f !in s.feeders
    ensures HandleEnabled(s, Call(a, r, m, data)) && HandleEnabled(s, SendWhenReady(a, r, m, data))
    ensures HandleEnabled(s, FeedTo(f, a, r)) && HandleEnabled(s, DropHandle(a)) && HandleEnabled(s, CloneHandle(a))
    ensures var t := Apply(s, Handle(CloneHandle(a)));
            && a in t.actors && t.actors[a].external == s.actors[a].external + 1
            && t.actors[a].strong == s.actors[a].strong + 1
            && HandleEnabled(t, DropHandle(a)) && Apply(t, Handle(DropHandle(a))) == s
  {}

  /**
   * A handler that awaits a reply is blocked exactly until its caster is resolved; then it goes on where it was, with
   * nothing of its actor changed by the wait.
   */
  lemma AwaitEnds(s: System, a: ActorId)
    requires Reachable(s) && a in s.actors && s.actors[a].awaiting.Some?
    ensures s.actors[a].phase.Handling?
    ensures var m := s.actors[a].awaiting.value;
            HandlerEnabled(s, a, Resumes) <==> m in s.msgs && s.msgs[m].caster.Resolved?
    ensures HandlerEnabled(s, a, Resumes) ==>
              var t := Apply(s, Handler(a, Resumes));
              a in t.actors && t.actors[a] == s.actors[a].(awaiting := None) && HandlerFree(t.actors[a])
  {
    hide Reachable;
    LoopAt(s, a);
  }

  // ---- the end ----

  /** The events by which a's own task closes down. */
  predicate ClosingEvents(es: seq<Event>, a: ActorId) {
    forall e <- es :: e.Loop? && e.a == a && (e.l.HookReturned? || e.l.QueueDropped? || e.l.TaskEnded?)
  }

  lemma DropShrinks(s: System, a: ActorId, r: RoleId)
    requires LoopEnabled(s, a, QueueDropped(r))
    ensures var t := Apply(s, Loop(a, QueueDropped(r)));
            && a in t.actors && t.actors[a].phase == s.actors[a].phase
            && Backlog(t.actors[a]) + 1 == Backlog(s.actors[a])
  {
    var x := s.actors[a];
    var e := Loop(a, QueueDropped(r));
    assert Own(s, e, a) == DropFront(x, r);
    hide Apply;
    ActorShape(s, e, a);
    var y := Apply(s, e).actors[a];
    assert y.lanes == DropFront(x, r).lanes && y.lanes.Keys == x.lanes.Keys;
    assert forall q <- x.lanes :: q != r ==> QueueLength(y.lanes)(q) == QueueLength(x.lanes)(q);
    assert QueueLength(y.lanes)(r) == QueueLength(x.lanes)(r) - 1;
    SumChange(x.lanes.Keys, QueueLength(x.lanes), QueueLength(y.lanes), r);
  }

  lemma {:induction false} ClosesDown(s: System, a: ActorId) returns (es: seq<Event>)
    requires Reachable(s) && a in s.actors && s.actors[a].phase.Closing?
    ensures Valid(s, es) && ClosingEvents(es, a) && a in Final(s, es).actors
    ensures Final(s, es).actors[a].phase == Dead(s.actors[a].phase.exit)
    decreases Backlog(s.actors[a])
  {
    hide Reachable, Apply, Enabled, Backlog;
    if AllEmpty(s.actors[a]) {
      es := [Loop(a, TaskEnded)];
      EndsTask(s, a);
      RunOne(s, es[0]);
    } else {
      var r :| r in s.actors[a].lanes && s.actors[a].lanes[r].queue != [];
      var e := Loop(a, QueueDropped(r));
      FrontRooted(s, a, r);
      assert Enabled(s, e) by { CanDrop(s, a, r); }
      DropShrinks(s, a, r);
      StepReachable(s, e);
      var fs := ClosesDown(Apply(s, e), a);
      RunOne(s, e);
      RunConcat(s, [e], fs);
      es := [e] + fs;
    }
  }

  lemma EndsTask(s: System, a: ActorId)
    requires a in s.actors && s.actors[a].phase.Closing? && AllEmpty(s.actors[a])
    ensures Enabled(s, Loop(a, TaskEnded))
    ensures var t := Apply(s, Loop(a, TaskEnded)); a in t.actors && t.actors[a].phase == Dead(s.actors[a].phase.exit)
  {}

  lemma CanDrop(s: System, a: ActorId, r: RoleId)
    requires Exists(s, a, r) && s.actors[a].phase.Closing? && s.actors[a].lanes[r].queue != []
    requires Rooted(s, s.actors[a].lanes[r].queue[0])
    ensures Enabled(s, Loop(a, QueueDropped(r))) && LoopEnabled(s, a, QueueDropped(r))
  {}

  lemma HookReturns(s: System, a: ActorId)
    requires a in s.actors && s.actors[a].phase.Finalizing?
    ensures Enabled(s, Loop(a, HookReturned))
    ensures var t := Apply(s, Loop(a, HookReturned));
            a in t.actors && t.actors[a].phase == Closing(s.actors[a].phase.exit)
  {}

  /**
   * Once stop or catch runs, the actor's own task can always complete by itself: it closes and drops what is queued,
   * and its exit handle then answers with the exit that was taken.
   */
  lemma ShutsDown(s: System, a: ActorId)
    requires Reachable(s) && a in s.actors && s.actors[a].phase.Finalizing?
    ensures exists es: seq<Event> ::
              Valid(s, es) && ClosingEvents(es, a) && a in Final(s, es).actors
              && ExitPoll(Final(s, es).actors[a])
                 == Some(if s.actors[a].phase.exit.Panicked? then PanicOutcome else ExitOutcome)
  {
    hide Reachable, Apply, Enabled, Valid, Final;
    var e := Loop(a, HookReturned);
    HookReturns(s, a);
    StepReachable(s, e);
    var fs := ClosesDown(Apply(s, e), a);
    RunOne(s, e);
    RunConcat(s, [e], fs);
    assert ClosingEvents([e] + fs, a);
  }
}
