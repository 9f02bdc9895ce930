/** Where the code does less than its documentation says: exactly when, and a run that shows it. */
module Findings {
  import opened Types
  import opened ActorSteps
  import opened Runtime
  import opened Ownership
  import opened Invariants
  import opened LoopProofs
  import opened Reachability
  import opened Replies
  import opened Delivery
  import opened Lifetime
  import opened Drain
  import opened Deadlock
  import opened Progress
  import opened Aftermath

  // ---- a graceful exit can leave messages behind ----

  /** A step of a's loop that ends it gracefully with a message still queued. */
  predicate LeavesBehind(s: System, a: ActorId, l: LoopEvent) {
    LoopEnabled(s, a, l)
    && var x := ApplyLoop(s, a, l).actors[a];
       !s.actors[a].phase.Finalizing? && x.phase.Finalizing? && !AllEmpty(x)
  }

  /**
   * The documentation promises that an actor without handles stops once no message is waiting. The loop can stop
   * with messages waiting in exactly one situation: it polls its timer when that is due, nobody else owns a
   * handle, and a message is there to be received as well. Before the deadline no loop step loses a message.
   */
  lemma LeavesBehindExactly(s: System, a: ActorId)
    requires Reachable(s) && a in s.actors
    ensures (exists l: LoopEvent :: LeavesBehind(s, a, l))
       <==> (LoopEnabled(s, a, TimerFired) && !HasOtherOwner(s, a) && !AllEmpty(s.actors[a]))
  {
    hide Reachable;
    forall l: LoopEvent | LeavesBehind(s, a, l)
      ensures LoopEnabled(s, a, TimerFired) && !HasOtherOwner(s, a) && !AllEmpty(s.actors[a])
    {
      var t := Apply(s, Loop(a, l));
      assert Enabled(s, Loop(a, l));
      ExitStep(s, Loop(a, l), t, a);
    }
    if LoopEnabled(s, a, TimerFired) && !HasOtherOwner(s, a) && !AllEmpty(s.actors[a]) {
      RunningMeans(s, a);
      assert LeavesBehind(s, a, TimerFired);
    }
  }

  // ---- who is told Hangup for it ----

  /** Message m is queued at a. */
  predicate QueuedAt(s: System, m: MsgId, a: ActorId) {
    m in s.msgs && s.msgs[m].stage.Queued? && s.msgs[m].to == a
  }

  /** The run takes a's timer branch, and leaves m behind by it. */
  ghost predicate TimerLeaves(s: System, es: seq<Event>, a: ActorId, m: MsgId)
    requires Valid(s, es)
    decreases |es|
  {
    es != []
    && ((es[0] == Loop(a, TimerFired) && LeavesBehind(s, a, TimerFired) && QueuedAt(s, m, a))
        || TimerLeaves(Apply(s, es[0]), es[1..], a, m))
  }

  /** a left its loop by the timer, and m was accepted and is never handled. */
  ghost predicate LostToTimer(s: System, a: ActorId, m: MsgId) {
    a in s.actors && HasExited(s.actors[a], TimedOut) && TooLate(s, m) && s.msgs[m].to == a
  }

  lemma {:induction false} NoTimerAfterwards(s: System, es: seq<Event>, a: ActorId, m: MsgId)
    requires Valid(s, es) && a in s.actors && HasLeft(s.actors[a])
    ensures !TimerLeaves(s, es, a, m)
    decreases |es|
  {
    hide Apply, Enabled;
    if es != [] {
      OutStaysOut(s, es[0], a);
      NoTimerAfterwards(Apply(s, es[0]), es[1..], a, m);
    }
  }

  /** A message lost to the timer was queued when the timer branch was taken. */
  lemma WasQueued(s: System, e: Event, es: seq<Event>, a: ActorId, m: MsgId)
    requires Reachable(s) && Enabled(s, e) && a in s.actors && !HasLeft(s.actors[a])
    requires a in Apply(s, e).actors && HasLeft(Apply(s, e).actors[a])
    requires Valid(Apply(s, e), es) && LostToTimer(Final(Apply(s, e), es), a, m)
    ensures e == Loop(a, TimerFired) && LeavesBehind(s, a, TimerFired) && QueuedAt(s, m, a)
  {
    hide Reachable, Valid, Final, Apply, Times;
    var t := Apply(s, e);
    var u := Final(t, es);
    NotYetLeft(s, e, a);
    ExitedForGood(t, es, a, t.actors[a].phase.exit);
    ExitStep(s, e, t, a);
    StepReachable(s, e);
    RunReachable(t, es);
    LoneArrivals(t, es, a);
    AcceptedAt(u, m);
    QueuedThen(t, es, a, m);
    TimerCount(s, a);
    MsgAt(s, m);
    OnePlace(s, m, a, s.msgs[m].role);
    InQueueNotEmpty(s.actors[a].lanes[s.msgs[m].role].queue, m);
    TimerLeavesLanes(s, a);
  }

  lemma InQueueNotEmpty(q: seq<MsgId>, m: MsgId)
    requires Times(q, m) > 0
    ensures q != []
  {}

  lemma TimerLeavesLanes(s: System, a: ActorId)
    requires LoopEnabled(s, a, TimerFired)
    ensures Enabled(s, Loop(a, TimerFired)) && ApplyLoop(s, a, TimerFired) == Apply(s, Loop(a, TimerFired))
    ensures a in ApplyLoop(s, a, TimerFired).actors && ApplyLoop(s, a, TimerFired).actors[a].lanes == s.actors[a].lanes
  {}

  /** What is queued or dropped at the end and arrived before the actor left its loop was queued then. */
  lemma QueuedThen(t: System, es: seq<Event>, a: ActorId, m: MsgId)
    requires Reachable(t) && Valid(t, es) && a in t.actors && t.actors[a].phase.Finalizing?
    requires LostToTimer(Final(t, es), a, m) && SameArrivals(t.actors[a], Final(t, es).actors[a])
    ensures QueuedAt(t, m, a)
  {
    hide Reachable, Valid, Final;
    var u := Final(t, es);
    RunReachable(t, es);
    AcceptedAt(u, m);
    var r := u.msgs[m].role;
    LaneAt(t, a, r);
    assert m in t.actors[a].lanes[r].enqueued;
    RunForward(t, es, m);
    AcceptedOf(t, a, r, m);
    if t.msgs[m].stage.Discarded? { DiscardedHasLeft(t, m); }
  }

  lemma AcceptedOf(s: System, a: ActorId, r: RoleId, m: MsgId)
    requires Exists(s, a, r) && LaneOk(s, a, r, s.actors[a].lanes[r]) && m in s.actors[a].lanes[r].enqueued
    ensures m in s.msgs && s.msgs[m].to == a && s.msgs[m].role == r && s.msgs[m].stage.Accepted()
  {
    var l := s.actors[a].lanes[r];
    assert m in l.began || m in l.dropped || m in l.queue;
  }

  /**
   * In every run, the messages lost by an actor that its timer ended are exactly those queued when that timer branch
   * was taken. The run may begin before the actor is started.
   */
  lemma {:induction false} LostExactly(s: System, es: seq<Event>, a: ActorId, m: MsgId)
    requires Reachable(s) && Valid(s, es) && (a in s.actors ==> !HasLeft(s.actors[a]))
    ensures LostToTimer(Final(s, es), a, m) <==> TimerLeaves(s, es, a, m)
    decreases |es|
  {
    hide Reachable, Apply, Enabled, LeavesBehind;
    if es != [] {
      var t := Apply(s, es[0]);
      StepReachable(s, es[0]);
      if a in s.actors { NotYetLeft(s, es[0], a); }
      if a in t.actors && HasLeft(t.actors[a]) {
        if a !in s.actors { Started(s, es[0], a); }
        NoTimerAfterwards(t, es[1..], a, m);
        if LostToTimer(Final(t, es[1..]), a, m) { WasQueued(s, es[0], es[1..], a, m); }
        if TimerLeaves(s, es, a, m) { IsLost(s, es, a, m); }
      } else {
        LostExactly(t, es[1..], a, m);
        if es[0] == Loop(a, TimerFired) && LeavesBehind(s, a, TimerFired) { LeavesLeft(s, a); }
      }
    }
  }

  lemma LeavesLeft(s: System, a: ActorId)
    requires LeavesBehind(s, a, TimerFired)
    ensures var t := Apply(s, Loop(a, TimerFired));
            a in t.actors && HasExited(t.actors[a], TimedOut) && t.msgs == s.msgs
  {}

  lemma IsLost(s: System, es: seq<Event>, a: ActorId, m: MsgId)
    requires Reachable(s) && es != [] && Valid(s, es)
    requires es[0] == Loop(a, TimerFired) && LeavesBehind(s, a, TimerFired) && QueuedAt(s, m, a)
    ensures LostToTimer(Final(s, es), a, m)
  {
    hide Reachable, Apply, Enabled, LeavesBehind;
    var t := Apply(s, es[0]);
    LeavesLeft(s, a);
    StepReachable(s, es[0]);
    NeverHandled(t, es[1..], m);
    RunForward(t, es[1..], m);
    ExitedForGood(t, es[1..], a, TimedOut);
  }

  /**
   * The callers who are told Hangup although the actor neither panicked nor was stopped are exactly those whose
   * message was queued when the actor's timer branch was taken.
   */
  lemma UndocumentedHangup(s: System, es: seq<Event>, m: MsgId)
    requires Initial(s) && Valid(s, es) && m in Final(s, es).msgs && Final(s, es).msgs[m].caster.Resolved?
    requires Final(s, es).msgs[m].to in Final(s, es).actors
    ensures var t := Final(s, es); var a := t.msgs[m].to; var x := t.actors[a];
            (t.msgs[m].caster.reply.Hangup? && x.running && !(HasLeft(x) && x.phase.exit.Panicked?))
            <==> TimerLeaves(s, es, a, m)
  {
    hide Valid, Final, Reachable;
    var t := Final(s, es);
    var a := t.msgs[m].to;
    assert Reachable(s) by { InitialReachable(s); }
    RunReachable(s, es);
    LostExactly(s, es, a, m);
    ReplyIsTruth(t, m);
    if t.msgs[m].caster.reply.Hangup? {
      HangupMeans(t, m);
      if t.msgs[m].stage.Crashed? {
        CrashedIsLast(t, m);
        CrashedHasLeft(t, m);
      }
    }
    if TimerLeaves(s, es, a, m) {
      MsgAt(t, m);
      ReachableLone(t);
      assert LoneExit(t.actors[a]);
    }
  }

  lemma InitialReachable(s: System)
    requires Initial(s)
    ensures Reachable(s)
  {
    RunNone(s);
    assert Initial(s) && Valid(s, []) && s == Final(s, []);
  }

  // ---- runs that show it ----

  /** Nothing has been started and the clock reads 0. */
  const NOTHING: System := System(0, map[], map[], map[])

  /** One event more. */
  lemma Extend(s: System, es: seq<Event>, e: Event) returns (fs: seq<Event>)
    requires Valid(s, es) && Enabled(Final(s, es), e)
    ensures fs == es + [e] && Valid(s, fs) && Final(s, fs) == Apply(Final(s, es), e)
  {
    RunAppend(s, es, e);
    fs := es + [e];
  }

  /** Waiting in select! with an empty mailbox and its only handle in user code. */
  predicate Settled(x: Actor, now: nat) {
    && x.strong == 2 && x.external == 1 && x.running && x.phase == Select({0}, true) && x.awaiting.None?
    && x.lanes.Keys == {0} && x.lanes[0].queue == [] && x.deadline == now + IDLE_TIMEOUT
    && x.log == []
  }

  /** An actor is started, reads its guards and waits. */
  lemma Settles(s: System, a: ActorId, init: UserState) returns (es: seq<Event>)
    requires a !in s.actors
    ensures Valid(s, es) && a in Final(s, es).actors && Settled(Final(s, es).actors[a], s.now)
    ensures Final(s, es) == SetActor(s, a, Final(s, es).actors[a])
  {
    hide Valid, Final;
    es := [];
    RunNone(s);
    es := Extend(s, es, Handle(Start(a, {0}, init)));
    es := Extend(s, es, Loop(a, FirstPolled));
    assert EnabledRoles(Final(s, es).actors[a]) == {0};
    es := Extend(s, es, Loop(a, ReadGuards));
  }

  /** In a handler that has not begun to wait, with a handle of its own in user code. */
  predicate Busy(x: Actor) {
    HandlerFree(x) && x.external > 0 && x.running && x.lanes.Keys == {0} && x.lanes[0].queue == []
  }

  /** A settled actor is called and handles message m. */
  lemma TakesCall(s: System, a: ActorId, m: MsgId, data: Data) returns (es: seq<Event>)
    requires a in s.actors && Settled(s.actors[a], s.now) && m !in s.msgs
    ensures Valid(s, es) && IsBusyWith(Final(s, es), a, m)
    ensures var t := Final(s, es);
            a in t.actors && m in t.msgs && t == SetMsg(SetActor(s, a, t.actors[a]), m, t.msgs[m])
  {
    hide Valid, Final, TaskEnabled, ApplyTask, HandlerEnabled, ApplyHandler;
    es := [];
    RunNone(s);
    es := Extend(s, es, Handle(Call(a, 0, m, data)));
    es := Extend(s, es, Envelope(PollSend(m)));
    es := Extend(s, es, Loop(a, Received(0)));
  }

  predicate IsBusyWith(s: System, a: ActorId, m: MsgId) {
    a in s.actors && Busy(s.actors[a]) && s.actors[a].phase.msg == m
    && m in s.msgs && s.msgs[m].to == a && s.msgs[m].path.Discard? && Rooted(s, m)
  }

  /** Actor a is started and handles message m. */
  lemma GetsBusy(s: System, a: ActorId, m: MsgId, init: UserState, data: Data) returns (es: seq<Event>)
    requires a !in s.actors && m !in s.msgs
    ensures Valid(s, es) && IsBusyWith(Final(s, es), a, m)
    ensures var t := Final(s, es);
            a in t.actors && m in t.msgs && t == SetMsg(SetActor(s, a, t.actors[a]), m, t.msgs[m])
  {
    hide Valid, Final, IsBusyWith;
    es := Settles(s, a, init);
    var t := Final(s, es);
    var fs := TakesCall(t, a, m, data);
    RunConcat(s, es, fs);
    es := es + fs;
  }

  // ---- a graceful exit loses a message ----

  /** Actor 0 waits, with a handle in user code and its deadline at 1000. */
  predicate WaitsSettled(s: System, now: nat) {
    s.now == now && s.actors.Keys == {0} && Settled(s.actors[0], 0) && s.msgs == map[]
  }

  /** Time passes until the timer is due. */
  lemma LetTimePass(es: seq<Event>, n: nat) returns (fs: seq<Event>)
    requires Valid(NOTHING, es) && WaitsSettled(Final(NOTHING, es), 0)
    ensures Valid(NOTHING, fs) && WaitsSettled(Final(NOTHING, fs), n)
  {
    hide Valid, Final;
    fs := es;
    for i := 0 to n
      invariant Valid(NOTHING, fs) && WaitsSettled(Final(NOTHING, fs), i)
    {
      fs := Extend(NOTHING, fs, Tick);
    }
  }

  /** The timer is due, nobody is left to reach the actor, and message 0 is queued and awaited. */
  predicate Racing(s: System) {
    && s.now == IDLE_TIMEOUT && s.actors.Keys == {0}
    && var x := s.actors[0];
    && x.strong == 1 && x.running && x.phase == Select({0}, true) && x.deadline == IDLE_TIMEOUT
    && x.lanes.Keys == {0} && x.lanes[0].queue == [0] && x.log == []
    && Rooted(s, 0) && s.msgs[0].to == 0 && s.msgs[0].path == Immediate && s.msgs[0].caster == Waiting
    && s.msgs[0].stage == Queued
  }

  /** Just as the timer is due, the owner of the last handle makes a call, polls its future, and drops the handle. */
  lemma CallAndLeave(es: seq<Event>, data: Data) returns (fs: seq<Event>)
    requires Valid(NOTHING, es) && WaitsSettled(Final(NOTHING, es), IDLE_TIMEOUT)
    ensures Valid(NOTHING, fs) && Racing(Final(NOTHING, fs))
  {
    hide Valid, Final, TaskEnabled, ApplyTask, LoopEnabled, ApplyLoop, HandlerEnabled, ApplyHandler;
    fs := Extend(NOTHING, es, Handle(Call(0, 0, 0, data)));
    fs := Extend(NOTHING, fs, Envelope(IntoFuture(0)));
    fs := Extend(NOTHING, fs, Envelope(PollCaster(0)));
    fs := Extend(NOTHING, fs, Handle(DropHandle(0)));
  }

  /**
   * Actor 0 ended by its timer without having been stopped, its exit handle says so, and the caller of message 0 was
   * told Hangup.
   */
  predicate HungUp(s: System) {
    && 0 in s.actors && s.actors[0].phase == Dead(TimedOut) && ExitPoll(s.actors[0]) == Some(ExitOutcome)
    && s.actors[0].running && s.actors[0].log == []
    && 0 in s.msgs && s.msgs[0].to == 0 && s.msgs[0].stage == Discarded && s.msgs[0].caster == Resolved(Hangup)
  }

  /** The actor's loop was ended by the timer, and its task is closing. */
  predicate ClosingRaced(s: System) {
    && s.actors.Keys == {0}
    && var x := s.actors[0];
    && x.running && x.phase == Closing(TimedOut) && x.lanes.Keys == {0} && x.lanes[0].queue == [0] && x.log == []
    && Rooted(s, 0) && s.msgs[0].to == 0 && s.msgs[0].path == Immediate && s.msgs[0].caster == Waiting
    && s.msgs[0].stage == Queued
  }

  lemma TimerEndsIt(es: seq<Event>) returns (fs: seq<Event>)
    requires Valid(NOTHING, es) && Racing(Final(NOTHING, es))
    ensures Valid(NOTHING, fs) && ClosingRaced(Final(NOTHING, fs))
  {
    hide Valid, Final, HandleEnabled, ApplyHandle, TaskEnabled, ApplyTask, HandlerEnabled, ApplyHandler;
    fs := Extend(NOTHING, es, Loop(0, TimerFired));
    fs := Extend(NOTHING, fs, Loop(0, HookReturned));
  }

  /** The task drops what is queued and ends; then its exit handle and the caller are told. */
  lemma BothAreTold(es: seq<Event>) returns (fs: seq<Event>)
    requires Valid(NOTHING, es) && ClosingRaced(Final(NOTHING, es))
    ensures Valid(NOTHING, fs) && HungUp(Final(NOTHING, fs))
  {
    hide Valid, Final, HandleEnabled, ApplyHandle, TaskEnabled, ApplyTask, HandlerEnabled, ApplyHandler;
    fs := Extend(NOTHING, es, Loop(0, QueueDropped(0)));
    fs := Extend(NOTHING, fs, Loop(0, TaskEnded));
    fs := Extend(NOTHING, fs, Envelope(PollCaster(0)));
  }

  /**
   * A run in which an actor nobody stopped, and whose handlers did not panic, ends without handling a message it
   * had accepted, and the caller that awaits it gets Hangup.
   */
  lemma LosesAcceptedMessage(init: UserState, data: Data)
    ensures exists es: seq<Event> :: Valid(NOTHING, es) && HungUp(Final(NOTHING, es))
  {
    hide Valid, Final, Reachable, HungUp;
    var es := Settles(NOTHING, 0, init);
    es := LetTimePass(es, IDLE_TIMEOUT);
    es := CallAndLeave(es, data);
    es := TimerEndsIt(es);
    es := BothAreTold(es);
  }

  // ---- sends are accepted after a panic ----

  /** The handler of message 0 panicked, `catch` is running, and message 1 was accepted. */
  predicate AcceptedInCatch(s: System) {
    && 0 in s.actors && s.actors[0].phase == Finalizing(Panicked)
    && 1 in s.msgs && s.msgs[1].to == 0 && s.msgs[1].stage == Queued
  }

  /** The documentation has sends fail after a panic. Here one made after the panic succeeds. */
  lemma SendAfterPanic(init: UserState, st: UserState, data: Data)
    ensures exists es: seq<Event> :: Valid(NOTHING, es) && AcceptedInCatch(Final(NOTHING, es))
  {
    hide Valid, Final;
    var es := GetsBusy(NOTHING, 0, 0, init, data);
    es := Extend(NOTHING, es, Handler(0, Panics(st)));
    es := Extend(NOTHING, es, Handle(Call(0, 0, 1, data)));
    es := Extend(NOTHING, es, Envelope(PollSend(1)));
    assert AcceptedInCatch(Final(NOTHING, es));
  }

  /** The whole life of an actor whose handler panics: its exit handle says so, and a send made meanwhile is lost. */
  lemma PanicsAndDies(init: UserState, st: UserState, data: Data)
    ensures exists es: seq<Event> ::
              Valid(NOTHING, es) && 0 in Final(NOTHING, es).actors
              && ExitPoll(Final(NOTHING, es).actors[0]) == Some(PanicOutcome)
              && TooLate(Final(NOTHING, es), 1) && Final(NOTHING, es).msgs[1].stage.Discarded?
  {
    hide Valid, Final, Reachable;
    SendAfterPanic(init, st, data);
    var es :| Valid(NOTHING, es) && AcceptedInCatch(Final(NOTHING, es));
    var s := Final(NOTHING, es);
    InitialReachable(NOTHING);
    RunReachable(NOTHING, es);
    ShutsDown(s, 0);
    var fs: seq<Event> :| Valid(s, fs) && ClosingEvents(fs, 0) && 0 in Final(s, fs).actors
                          && ExitPoll(Final(s, fs).actors[0]) == Some(PanicOutcome);
    RunConcat(NOTHING, es, fs);
    RunReachable(s, fs);
    NeverHandled(s, fs, 1);
    RunForward(s, fs, 1);
    var t := Final(s, fs);
    MsgAt(t, 1);
    DeadSettles(t, 0, t.msgs[1].role);
    assert Valid(NOTHING, es + fs);
  }

  // ---- messages are handled after stop ----

  /** Actor 0 called stop, and message 1 has not been made yet. */
  predicate StopCalledFirst(s: System) {
    0 in s.actors && !s.actors[0].running && 1 !in s.msgs
  }

  predicate HandledLater(s: System) {
    0 in s.actors && !s.actors[0].running && 1 in s.msgs && s.msgs[1].to == 0 && s.msgs[1].stage.Handled?
  }

  /** The documentation has no message processed after stop. Here one that is only made after stop is handled. */
  lemma HandledAfterStop(init: UserState, st: UserState, v: Value, data: Data)
    ensures exists es: seq<Event>, fs: seq<Event> ::
              Valid(NOTHING, es) && StopCalledFirst(Final(NOTHING, es))
              && Valid(Final(NOTHING, es), fs) && HandledLater(Final(Final(NOTHING, es), fs))
  {
    hide Valid, Final;
    var es := GetsBusy(NOTHING, 0, 0, init, data);
    es := Extend(NOTHING, es, Handler(0, StopCalled));
    var s := Final(NOTHING, es);
    var fs := CallWhileStopping(s, st, v, data);
    fs := DrainOne(s, fs, st, v);
    assert StopCalledFirst(s) && HandledLater(Final(s, fs));
  }

  /** Stopping, at the top of the loop, with message 1 queued. */
  predicate OneLeft(s: System) {
    && 0 in s.actors && 1 in s.msgs && s.msgs[1].to == 0 && s.msgs[1].path.Discard? && Rooted(s, 1) && 2 !in s.msgs
    && var x := s.actors[0];
    && !x.running && x.phase.LoopTop? && x.awaiting.None? && x.lanes.Keys == {0} && x.lanes[0].queue == [1]
  }

  lemma CallWhileStopping(s: System, st: UserState, v: Value, data: Data) returns (fs: seq<Event>)
    requires 0 in s.actors && Busy(s.actors[0].(running := true)) && !s.actors[0].running && s.msgs.Keys == {0}
    requires s.actors[0].phase.msg == 0 && Rooted(s, 0) && s.msgs[0].path.Discard? && s.msgs[0].to == 0
    ensures Valid(s, fs) && OneLeft(Final(s, fs))
  {
    hide Valid, Final, TaskEnabled, ApplyTask, LoopEnabled, ApplyLoop;
    fs := [];
    RunNone(s);
    fs := Extend(s, fs, Handle(Call(0, 0, 1, data)));
    fs := Extend(s, fs, Envelope(PollSend(1)));
    fs := Extend(s, fs, Handler(0, Returned(st, v)));
    fs := Extend(s, fs, Handler(0, Replied(2)));
  }

  lemma DrainOne(s: System, es: seq<Event>, st: UserState, v: Value) returns (fs: seq<Event>)
    requires Valid(s, es) && OneLeft(Final(s, es))
    ensures Valid(s, fs) && HandledLater(Final(s, fs))
  {
    hide Valid, Final;
    assert EnabledRoles(Final(s, es).actors[0]) == {0};
    fs := Extend(s, es, Loop(0, ReadGuards));
    fs := Extend(s, fs, Loop(0, Received(0)));
    fs := Extend(s, fs, Handler(0, Returned(st, v)));
    fs := Extend(s, fs, Handler(0, Replied(2)));
  }

  // ---- a circle of awaiting handlers can be reached ----

  /** Only a's wait for a reply is new: otherwise handlers, handles and mailboxes are as before. */
  predicate OnlyAwaits(s: System, t: System, a: ActorId) {
    t.actors.Keys == s.actors.Keys
    && forall c <- s.actors ::
         var x, y := s.actors[c], t.actors[c];
         y.external == x.external && y.lanes.Keys == x.lanes.Keys && y.phase == x.phase
         && (c != a ==> y.awaiting == x.awaiting)
  }

  /** Somebody with a handle of b calls it and makes a ReturnCaster of the Envelope. */
  lemma MakesCall(s: System, b: ActorId, m: MsgId, data: Data) returns (es: seq<Event>)
    requires HasHandle(s, b) && Exists(s, b, 0) && m !in s.msgs
    ensures Valid(s, es)
    ensures var t := Final(s, es); var x := s.actors[b];
            && t.actors == s.actors[b := x.(strong := x.strong + 1)]
            && m in t.msgs && t.msgs == s.msgs[m := t.msgs[m]]
            && t.msgs[m] == Msg(b, 0, Arguments(data), Immediate, Casting, Unsent, Open, None, None)
  {
    hide Valid, Final;
    es := [];
    RunNone(s);
    es := Extend(s, es, Handle(Call(b, 0, m, data)));
    es := Extend(s, es, Envelope(IntoFuture(m)));
  }

  lemma SubmitAccepted(s: System, m: MsgId)
    requires Rooted(s, m) && Accepting(s.actors[s.msgs[m].to]) && s.msgs[m].caster == Unsent
    ensures var t := Submit(s, m);
            && t.actors.Keys == s.actors.Keys
            && (forall c <- s.actors ::
                  t.actors[c].external == s.actors[c].external && t.actors[c].lanes.Keys == s.actors[c].lanes.Keys
                  && t.actors[c].phase == s.actors[c].phase && t.actors[c].awaiting == s.actors[c].awaiting)
            && t.msgs == s.msgs[m := s.msgs[m].(caster := Waiting, stage := Queued)]
  {}

  /** The handler of a blocks on the reply. */
  lemma AwaitsIt(s: System, a: ActorId, m: MsgId) returns (es: seq<Event>)
    requires a in s.actors && HandlerFree(s.actors[a]) && Rooted(s, m) && Accepting(s.actors[s.msgs[m].to])
    requires s.msgs[m].caster == Unsent && forall c <- s.actors :: s.actors[c].awaiting != Some(m)
    ensures Valid(s, es) && OnlyAwaits(s, Final(s, es), a)
    ensures var t := Final(s, es);
            && m in t.msgs && t.msgs == s.msgs[m := t.msgs[m]] && t.msgs[m].to == s.msgs[m].to
            && t.msgs[m].caster == Waiting && t.msgs[m].stage == Queued && t.actors[a].awaiting == Some(m)
  {
    hide Valid, Final, Submit;
    es := [];
    RunNone(s);
    es := Extend(s, es, Handler(a, Awaits(m)));
    SubmitAccepted(Final(s, es), m);
    es := Extend(s, es, Envelope(PollCaster(m)));
  }

  /** The handler of a calls b and awaits the reply. */
  lemma AwaitsCall(s: System, a: ActorId, b: ActorId, m: MsgId, data: Data) returns (es: seq<Event>)
    requires a in s.actors && HandlerFree(s.actors[a])
    requires HasHandle(s, b) && Exists(s, b, 0) && Accepting(s.actors[b])
    requires m !in s.msgs && forall c <- s.actors :: s.actors[c].awaiting != Some(m)
    ensures Valid(s, es) && OnlyAwaits(s, Final(s, es), a)
    ensures var t := Final(s, es);
            && m in t.msgs && t.msgs == s.msgs[m := t.msgs[m]] && t.msgs[m].to == b
            && t.msgs[m].caster == Waiting && t.msgs[m].stage == Queued && t.actors[a].awaiting == Some(m)
  {
    hide Valid, Final;
    es := MakesCall(s, b, m, data);
    var fs := AwaitsIt(Final(s, es), a, m);
    RunConcat(s, es, fs);
    es := es + fs;
  }

  predicate BothBusy(s: System) {
    s.actors.Keys == {0, 1} && Busy(s.actors[0]) && Busy(s.actors[1]) && s.msgs.Keys == {0, 1}
  }

  lemma TwoBusy(init: UserState, data: Data) returns (es: seq<Event>)
    ensures Valid(NOTHING, es) && BothBusy(Final(NOTHING, es))
  {
    hide Valid, Final;
    es := GetsBusy(NOTHING, 0, 0, init, data);
    var fs := GetsBusy(Final(NOTHING, es), 1, 1, init, data);
    RunConcat(NOTHING, es, fs);
    es := es + fs;
  }

  /** The handler of 0 awaits message 2, queued at 1, whose handler has not begun to wait. */
  predicate OneAwaits(s: System) {
    && s.actors.Keys == {0, 1} && BlockedIn(s, {0, 1}, 0) && s.actors[0].awaiting == Some(2) && s.msgs[2].to == 1
    && HasHandle(s, 0) && Exists(s, 0, 0) && HandlerFree(s.actors[1]) && s.msgs.Keys == {0, 1, 2}
  }

  lemma FirstAwaits(s: System, data: Data) returns (es: seq<Event>)
    requires BothBusy(s)
    ensures Valid(s, es) && OneAwaits(Final(s, es))
  {
    hide Valid, Final;
    es := AwaitsCall(s, 0, 1, 2, data);
  }

  lemma SecondAwaits(s: System, data: Data) returns (es: seq<Event>)
    requires OneAwaits(s)
    ensures Valid(s, es) && Circular(Final(s, es), {0, 1})
  {
    hide Valid, Final;
    es := AwaitsCall(s, 1, 0, 3, data);
    var t := Final(s, es);
    assert BlockedIn(t, {0, 1}, 0) && BlockedIn(t, {0, 1}, 1);
  }

  /** The handlers of two actors call each other and await the replies: a circle, from which nothing leads out. */
  lemma CircleReachable(init: UserState, data: Data)
    ensures exists es: seq<Event> :: Valid(NOTHING, es) && Circular(Final(NOTHING, es), {0, 1})
  {
    hide Valid, Final, Circular, BothBusy, OneAwaits;
    var es := TwoBusy(init, data);
    var fs := FirstAwaits(Final(NOTHING, es), data);
    RunConcat(NOTHING, es, fs);
    es := es + fs;
    fs := SecondAwaits(Final(NOTHING, es), data);
    RunConcat(NOTHING, es, fs);
    assert Valid(NOTHING, es + fs);
  }
}
