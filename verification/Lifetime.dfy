/** When and why an actor's loop ends, and how the strong count isolates an actor nobody can reach. */
module Lifetime {
  import opened Types
  import opened ActorSteps
  import opened Runtime
  import opened Ownership
  import opened Invariants
  import opened MessageProofs
  import opened MessageShapes
  import opened StructureProofs
  import opened LoopProofs
  import opened Reachability

  // ---- who keeps an actor running ----

  /** Something other than the actor's own Context owns a handle of it. */
  predicate HasOtherOwner(s: System, a: ActorId)
    requires a in s.actors
  {
    s.actors[a].external > 0 || Senders(s.msgs, a) != {} || Closures(s.msgs, a) != {} || LiveFeeders(s.feeders, a) != {}
  }

  /** is_running is false exactly when stop was called or nobody else owns a handle. */
  lemma RunningMeans(s: System, a: ActorId)
    requires Reachable(s) && a in s.actors && !s.actors[a].phase.Dead?
    ensures IsRunning(s.actors[a]) <==> s.actors[a].running && HasOtherOwner(s, a)
    ensures s.actors[a].strong >= 1
  {
    hide Reachable;
    ActorAt(s, a);
  }

  /** recv never yields None: the Context's own handle keeps the senders alive while the task lives. */
  lemma ReceiveNeverNone(s: System, a: ActorId, r: RoleId)
    requires Reachable(s)
    ensures !LoopEnabled(s, a, ReceivedNone(r))
  {
    hide Reachable;
    if LoopEnabled(s, a, ReceivedNone(r)) { RunningMeans(s, a); }
  }

  // ---- leaving the loop ----

  /** The step by which a leaves its loop: which exit it takes, and why. */
  lemma ExitStep(s: System, e: Event, t: System, a: ActorId)
    requires Enabled(s, e) && t == Apply(s, e) && a in s.actors && a in t.actors
    requires !s.actors[a].phase.Finalizing? && t.actors[a].phase.Finalizing?
    requires Reachable(s)
    ensures var x := s.actors[a]; var exit := t.actors[a].phase.exit;
            && (exit.Drained? <==> e == Loop(a, ReadGuards))
            && (exit.TimedOut? <==> e == Loop(a, TimerFired))
            && (exit.Panicked? <==> e.Handler? && e.a == a && e.h.Panics?)
            && (exit.Drained? ==> AllEmpty(x) && (!x.running || !HasOtherOwner(s, a)))
            && (exit.TimedOut? ==> s.now >= x.deadline && x.running && !HasOtherOwner(s, a))
            && (!exit.Panicked? ==> t.actors[a].state == x.state)
            && t.actors[a].lanes == x.lanes
  {
    hide Reachable, Apply, Own, Owners, HasOtherOwner;
    if e.Loop? && e.a == a && e.l.ReceivedNone? { ReceiveNeverNone(s, a, e.l.r); }
    ExitEvent(s, e, t, a);
    ExitLanes(s, e, a);
    LoopAt(s, a);
    RunningMeans(s, a);
    GuardsDrained(s.actors[a]);
  }

  /** Which own event makes an actor leave its loop, and with which exit. */
  predicate LeavesBy(x: Actor, e: Event, a: ActorId, exit: Exit) {
    (e == Loop(a, ReadGuards) && exit.Drained? && EnabledRoles(x) == {} && !IsRunning(x))
    || (e == Loop(a, TimerFired) && exit.TimedOut? && !IsRunning(x))
    || (e.Handler? && e.a == a && e.h.Panics? && exit.Panicked?)
  }

  lemma ExitOwn(s: System, e: Event, a: ActorId)
    requires Enabled(s, e) && a in s.actors && !s.actors[a].phase.Finalizing? && Own(s, e, a).phase.Finalizing?
    requires !(e.Loop? && e.a == a && e.l.ReceivedNone?)
    ensures LeavesBy(s.actors[a], e, a, Own(s, e, a).phase.exit)
    ensures !Own(s, e, a).phase.exit.Panicked? ==> Own(s, e, a).state == s.actors[a].state
  {}

  /** Only three events of its own make an actor leave its loop. */
  lemma ExitEvent(s: System, e: Event, t: System, a: ActorId)
    requires Enabled(s, e) && t == Apply(s, e) && a in s.actors && a in t.actors
    requires !s.actors[a].phase.Finalizing? && t.actors[a].phase.Finalizing?
    requires !(e.Loop? && e.a == a && e.l.ReceivedNone?)
    ensures LeavesBy(s.actors[a], e, a, t.actors[a].phase.exit)
    ensures !t.actors[a].phase.exit.Panicked? ==> t.actors[a].state == s.actors[a].state
  {
    hide Apply, Own, LeavesBy;
    ActorShape(s, e, a);
    ExitOwn(s, e, a);
  }

  lemma GuardsDrained(x: Actor)
    ensures EnabledRoles(x) == {} ==> AllEmpty(x)
  {
    forall r | EnabledRoles(x) == {} && r in x.lanes ensures x.lanes[r].queue == [] {
      assert r !in EnabledRoles(x);
    }
  }

  lemma ExitLanes(s: System, e: Event, a: ActorId)
    requires Enabled(s, e) && a in s.actors
    requires e == Loop(a, ReadGuards) || e == Loop(a, TimerFired) || (e.Handler? && e.a == a && e.h.Panics?)
    ensures a in Apply(s, e).actors && Apply(s, e).actors[a].lanes == s.actors[a].lanes
  {}

  // ---- an actor nobody else can reach ----

  /** Nothing can send to a, clone a handle of it, or release one. */
  ghost predicate Unreachable(s: System, a: ActorId) {
    && a in s.actors && s.actors[a].external == 0
    && (forall m <- s.msgs :: Share(s.msgs[m], a) == 0)
    && (forall f <- s.feeders :: !(s.feeders[f].live && s.feeders[f].to == a))
  }

  lemma AloneUnreachable(s: System, a: ActorId)
    requires a in s.actors && !HasOtherOwner(s, a)
    ensures Unreachable(s, a)
  {
    forall m | m in s.msgs ensures Share(s.msgs[m], a) == 0 {
      assert m !in Senders(s.msgs, a) && m !in Closures(s.msgs, a);
    }
    forall f | f in s.feeders ensures !(s.feeders[f].live && s.feeders[f].to == a) {
      assert f !in LiveFeeders(s.feeders, a);
    }
  }

  lemma HandleMisses(s: System, u: HandleEvent, a: ActorId)
    requires HandleEnabled(s, u) && Unreachable(s, a)
    ensures a in ApplyHandle(s, u).actors && ApplyHandle(s, u).actors[a] == s.actors[a]
  {}

  lemma SubmitMisses(s: System, m: MsgId, a: ActorId)
    requires Rooted(s, m) && s.msgs[m].stage.OwnsDestination() && MsgOk(s.msgs[m])
    requires a in s.actors && Share(s.msgs[m], a) == 0
    ensures a in Submit(s, m).actors && Submit(s, m).actors[a] == s.actors[a]
  {}

  lemma EnvelopeMisses(s: System, v: EnvelopeEvent, a: ActorId)
    requires EnvelopeEnabled(s, v) && Unreachable(s, a) && MsgsOk(s)
    ensures a in ApplyEnvelope(s, v).actors && ApplyEnvelope(s, v).actors[a] == s.actors[a]
  {
    hide Submit;
    match v
    case PollSend(m) => SubmitMisses(s, m, a);
    case PollCaster(m) => if s.msgs[m].caster.Unsent? { SubmitMisses(s, m, a); }
    case _ =>
  }

  lemma TaskMisses(s: System, t: TaskEvent, a: ActorId)
    requires TaskEnabled(s, t) && Unreachable(s, a) && MsgsOk(s)
    ensures a in ApplyTask(s, t).actors && ApplyTask(s, t).actors[a] == s.actors[a]
  {
    match t
    case HelperSends(m) => SubmitMisses(s, m, a);
    case _ =>
  }

  lemma HandlerMisses(s: System, b: ActorId, h: HandlerEvent, a: ActorId)
    requires HandlerEnabled(s, b, h) && ActsOnCurrent(s, b, h) && Unreachable(s, a) && a != b
    ensures a in ApplyHandler(s, b, h).actors && ApplyHandler(s, b, h).actors[a] == s.actors[a]
  {}

  lemma LoopMisses(s: System, b: ActorId, l: LoopEvent, a: ActorId)
    requires LoopEnabled(s, b, l) && TakesQueued(s, b, l) && Unreachable(s, a) && a != b
    ensures a in ApplyLoop(s, b, l).actors && ApplyLoop(s, b, l).actors[a] == s.actors[a]
  {}

  /** While an actor's count is 1, no event of another task changes it in any way. */
  lemma Untouched(s: System, e: Event, a: ActorId)
    requires Reachable(s) && Enabled(s, e) && a in s.actors && s.actors[a].strong == 1 && !s.actors[a].phase.Dead?
    requires !((e.Loop? || e.Handler?) && e.a == a)
    ensures a in Apply(s, e).actors && Apply(s, e).actors[a] == s.actors[a]
  {
    hide Reachable, Unreachable, ActsOnCurrent, TakesQueued, MsgsOk, LanesOk, HandlersOk, WellFormed;
    hide ApplyHandle, ApplyEnvelope, ApplyTask, ApplyHandler, ApplyLoop;
    LastHandleGone(s, a);
    PartsAt(s);
    match e
    case Tick =>
    case Handle(u) => HandleMisses(s, u, a);
    case Envelope(v) => EnvelopeMisses(s, v, a);
    case Task(t) => TaskMisses(s, t, a);
    case Handler(b, h) => HandlerActsOnCurrent(s, b, h); HandlerMisses(s, b, h, a);
    case Loop(b, l) => LoopTakesQueued(s, b, l); LoopMisses(s, b, l, a);
  }

  /** A count of 1 is the Context's own handle: there is no other. */
  lemma LastHandleGone(s: System, a: ActorId)
    requires Reachable(s) && a in s.actors && s.actors[a].strong == 1 && !s.actors[a].phase.Dead?
    ensures !HasOtherOwner(s, a) && Unreachable(s, a)
  {
    hide Reachable, Unreachable;
    ActorAt(s, a);
    AloneUnreachable(s, a);
  }

  /**
   * While an actor is not in a handler and its count is 1, nothing but its own loop can change it:
   * no event raises its count, adds to its mailboxes or moves its deadline.
   */
  lemma Isolated(s: System, e: Event, a: ActorId)
    requires Reachable(s) && Enabled(s, e) && a in s.actors && s.actors[a].strong == 1
    requires !s.actors[a].phase.Handling? && !s.actors[a].phase.Replying? && !s.actors[a].phase.Dead?
    requires !(e.Loop? && e.a == a)
    ensures a in Apply(s, e).actors && Apply(s, e).actors[a] == s.actors[a]
  {
    hide Reachable, Apply, LoopEnabled;
    LoopAt(s, a);
    Untouched(s, e, a);
  }

  // ---- the watchdog ----

  /** Waiting in select! with empty mailboxes and no handle left. */
  predicate WaitsAlone(s: System, a: ActorId) {
    a in s.actors
    && var x := s.actors[a];
    x.phase.Select? && x.strong == 1 && AllEmpty(x)
  }

  /** The timer task is scheduled as soon as it is due: time does not pass while a's timer is. */
  predicate Prompt(s: System, es: seq<Event>, a: ActorId)
    requires Valid(s, es)
    decreases |es|
  {
    es != [] ==>
      (es[0].Tick? ==> !LoopEnabled(s, a, TimerFired)) && Prompt(Apply(s, es[0]), es[1..], a)
  }

  /** An actor that waits alone either stays exactly as it is, or is ended by its own timer. */
  lemma AloneStep(s: System, e: Event, a: ActorId)
    requires Reachable(s) && Enabled(s, e) && WaitsAlone(s, a)
    ensures a in Apply(s, e).actors
    ensures (e == Loop(a, TimerFired) && s.now >= s.actors[a].deadline
               && Apply(s, e).actors[a] == s.actors[a].(phase := Finalizing(TimedOut)))
            || Apply(s, e).actors[a] == s.actors[a]
  {
    hide Reachable, Apply;
    if e.Loop? && e.a == a {
      ReceiveNeverNone(s, a, if e.l.ReceivedNone? then e.l.r else 0);
      TimerEnds(s, a, e.l);
    } else {
      Isolated(s, e, a);
    }
  }

  lemma TimerEnds(s: System, a: ActorId, l: LoopEvent)
    requires LoopEnabled(s, a, l) && WaitsAlone(s, a) && !l.ReceivedNone?
    ensures l.TimerFired? && s.now >= s.actors[a].deadline
    ensures a in Apply(s, Loop(a, l)).actors
    ensures Apply(s, Loop(a, l)).actors[a] == s.actors[a].(phase := Finalizing(TimedOut))
  {}

  /** Once out of its loop an actor stays out, with the exit it took. */
  lemma OutStaysOut(s: System, e: Event, a: ActorId)
    requires Enabled(s, e) && a in s.actors && (s.actors[a].phase.Finalizing? || s.actors[a].phase.Ended())
    ensures a in Apply(s, e).actors
    ensures var p := Apply(s, e).actors[a].phase;
            (p.Finalizing? || p.Ended()) && p.exit == s.actors[a].phase.exit
    ensures Apply(s, e).actors[a].state == s.actors[a].state && Apply(s, e).actors[a].log == s.actors[a].log
  {
    hide Apply;
    ActorShape(s, e, a);
  }

  predicate HasExited(x: Actor, exit: Exit) {
    (x.phase.Finalizing? || x.phase.Ended()) && x.phase.exit == exit
  }

  lemma {:induction false} ExitedForGood(s: System, es: seq<Event>, a: ActorId, exit: Exit)
    requires Valid(s, es) && a in s.actors && HasExited(s.actors[a], exit)
    ensures a in Final(s, es).actors && HasExited(Final(s, es).actors[a], exit)
    ensures Final(s, es).actors[a].state == s.actors[a].state && Final(s, es).actors[a].log == s.actors[a].log
    decreases |es|
  {
    hide Apply, Enabled;
    if es != [] {
      OutStaysOut(s, es[0], a);
      ExitedForGood(Apply(s, es[0]), es[1..], a, exit);
    }
  }

  /** Time passes while a waits alone only if its timer is not due yet. */
  lemma TickBeforeDeadline(s: System, a: ActorId)
    requires Reachable(s) && WaitsAlone(s, a) && !LoopEnabled(s, a, TimerFired)
    ensures s.now < s.actors[a].deadline
  {
    hide Reachable;
    LoopAt(s, a);
  }

  lemma AloneTime(s: System, e: Event, a: ActorId)
    requires Reachable(s) && Enabled(s, e) && WaitsAlone(s, a)
    ensures Apply(s, e).now == s.now + if e.Tick? then 1 else 0
    ensures s.actors[a].deadline <= s.now + IDLE_TIMEOUT
  {
    hide Reachable, Apply, Enabled, MsgsOk, LanesOk, HandlersOk, WellFormed;
    LoopAt(s, a);
    PartsAt(s);
    TimeGrows(s, e);
  }

  /**
   * Once the last handle is gone while an actor waits with empty mailboxes, its record, its deadline included,
   * never changes again until its timer ends it; with a prompt timer that is within IDLE_TIMEOUT.
   */
  lemma {:induction false} WatchdogBound(s: System, es: seq<Event>, a: ActorId)
    requires Reachable(s) && Valid(s, es) && WaitsAlone(s, a)
    ensures a in Final(s, es).actors
    ensures Final(s, es).actors[a] == s.actors[a] || HasExited(Final(s, es).actors[a], TimedOut)
    ensures Prompt(s, es, a) && Final(s, es).now > s.now + IDLE_TIMEOUT ==>
              HasExited(Final(s, es).actors[a], TimedOut)
  {
    hide Reachable, Enabled, Apply;
    WatchdogRun(s, es, a);
    LoopAt(s, a);
  }

  lemma {:induction false} WatchdogRun(s: System, es: seq<Event>, a: ActorId)
    requires Reachable(s) && Valid(s, es) && WaitsAlone(s, a)
    ensures a in Final(s, es).actors
    ensures Final(s, es).actors[a] == s.actors[a] || HasExited(Final(s, es).actors[a], TimedOut)
    ensures Prompt(s, es, a) ==>
              HasExited(Final(s, es).actors[a], TimedOut)
              || Final(s, es).now <= s.now || Final(s, es).now <= s.actors[a].deadline
    decreases |es|
  {
    hide Reachable, Apply, Enabled, LoopEnabled;
    if es != [] {
      var t := Apply(s, es[0]);
      AloneStep(s, es[0], a);
      AloneTime(s, es[0], a);
      StepReachable(s, es[0]);
      if t.actors[a] == s.actors[a] {
        WatchdogRun(t, es[1..], a);
        if es[0].Tick? && Prompt(s, es, a) { TickBeforeDeadline(s, a); }
      } else {
        ExitedForGood(t, es[1..], a, TimedOut);
      }
    }
  }

  // ---- when the timer goes off ----

  /** The events after which the watchdog starts a new period. */
  predicate Restarts(s: System, e: Event, a: ActorId) {
    e.Loop? && e.a == a && (e.l.FirstPolled? || e.l.Received? || e.l.TimerFired?)
    && a in s.actors && (e.l.TimerFired? ==> IsRunning(s.actors[a]))
  }

  lemma RestartSets(s: System, e: Event, a: ActorId)
    requires Enabled(s, e) && Restarts(s, e, a)
    ensures a in Apply(s, e).actors && Apply(s, e).actors[a].deadline == s.now + 1000
    ensures Apply(s, e).actors[a].phase.InLoop()
  {}

  lemma DeadlineStep(s: System, e: Event, a: ActorId)
    requires Reachable(s) && Enabled(s, e) && a in s.actors
    ensures a in Apply(s, e).actors
    ensures s.actors[a].phase.InLoop() ==> Apply(s, e).actors[a].deadline >= s.actors[a].deadline
    ensures !Restarts(s, e, a) ==> Apply(s, e).actors[a].deadline == s.actors[a].deadline
    ensures s.actors[a].phase.InLoop() ==> !Apply(s, e).actors[a].phase.Starting?
    ensures Apply(s, e).actors[a].phase.InLoop() ==>
              s.actors[a].phase.InLoop() || (s.actors[a].phase.Starting? && e == Loop(a, FirstPolled))
  {
    hide Reachable, Apply;
    LoopAt(s, a);
    ActorShape(s, e, a);
  }

  /** No event of es restarts a's period. */
  ghost predicate NoRestart(s: System, es: seq<Event>, a: ActorId)
    requires Valid(s, es)
    decreases |es|
  {
    es != [] ==> !Restarts(s, es[0], a) && NoRestart(Apply(s, es[0]), es[1..], a)
  }

  lemma {:induction false} DeadlineRun(s: System, es: seq<Event>, a: ActorId)
    requires Reachable(s) && Valid(s, es) && a in s.actors && s.actors[a].phase.InLoop()
    ensures a in Final(s, es).actors
    ensures Final(s, es).actors[a].phase.InLoop() ==> Final(s, es).actors[a].deadline >= s.actors[a].deadline
    ensures NoRestart(s, es, a) ==> Final(s, es).actors[a].deadline == s.actors[a].deadline
    decreases |es|
  {
    hide Reachable, Apply, Enabled, Restarts;
    if es != [] {
      var t := Apply(s, es[0]);
      DeadlineStep(s, es[0], a);
      StepReachable(s, es[0]);
      if t.actors[a].phase.InLoop() {
        DeadlineRun(t, es[1..], a);
      } else {
        OutRun(t, es[1..], a);
      }
    }
  }

  /** Out of the loop the deadline is never set again. */
  lemma {:induction false} OutRun(s: System, es: seq<Event>, a: ActorId)
    requires Reachable(s) && Valid(s, es) && a in s.actors
    requires !s.actors[a].phase.InLoop() && !s.actors[a].phase.Starting?
    ensures a in Final(s, es).actors && !Final(s, es).actors[a].phase.InLoop()
    ensures Final(s, es).actors[a].deadline == s.actors[a].deadline
    decreases |es|
  {
    hide Reachable, Apply, Enabled;
    if es != [] {
      DeadlineStep(s, es[0], a);
      OutsideLoopStays(s, es[0], a);
      StepReachable(s, es[0]);
      OutRun(Apply(s, es[0]), es[1..], a);
    }
  }

  lemma OutsideLoopStays(s: System, e: Event, a: ActorId)
    requires Enabled(s, e) && a in s.actors && !s.actors[a].phase.InLoop() && !s.actors[a].phase.Starting?
    ensures !Restarts(s, e, a) && a in Apply(s, e).actors && !Apply(s, e).actors[a].phase.Starting?
  {
    hide Apply;
    ActorShape(s, e, a);
  }

  /**
   * In every run the timer goes off one second (1000 ms) after the loop was entered, a message was last received, or
   * the timer last went on, whichever came last: not before, and it can as soon as the loop waits with it.
   */
  lemma TimerPeriod(s: System, e: Event, es: seq<Event>, a: ActorId)
    requires Reachable(s) && Enabled(s, e) && Restarts(s, e, a) && Valid(Apply(s, e), es)
    ensures var t := Final(Apply(s, e), es);
            && (LoopEnabled(t, a, TimerFired) ==> t.now >= s.now + 1000)
            && (NoRestart(Apply(s, e), es, a) && a in t.actors
                && t.actors[a].phase.Select? && t.actors[a].phase.timer ==>
                  (LoopEnabled(t, a, TimerFired) <==> t.now >= s.now + 1000))
  {
    hide Reachable, Apply, Enabled, Valid, Final, Restarts;
    RestartSets(s, e, a);
    StepReachable(s, e);
    DeadlineRun(Apply(s, e), es, a);
  }

  // ---- what select! may take ----

  /** Not an event of a's own task. */
  predicate Foreign(e: Event, a: ActorId) {
    !((e.Handler? || e.Loop?) && e.a == a)
  }

  predicate AllForeign(es: seq<Event>, a: ActorId) {
    forall e <- es :: Foreign(e, a)
  }

  /** Events of others reach an actor from outside only. */
  lemma {:induction false} ForeignRun(s: System, es: seq<Event>, a: ActorId)
    requires Valid(s, es) && AllForeign(es, a) && a in s.actors
    ensures a in Final(s, es).actors && Outside(s.actors[a], Final(s, es).actors[a])
    decreases |es|
  {
    hide Apply, Enabled, Outside;
    if es == [] {
      CountOutside(s.actors[a], s.actors[a].strong, s.actors[a].external);
    } else {
      var t := Apply(s, es[0]);
      assert es[0] in es;
      ActorShape(s, es[0], a);
      ForeignRun(t, es[1..], a);
      OutsideTwice(s.actors[a], t.actors[a], Final(s, es).actors[a]);
    }
  }

  /**
   * The guards count as they were when select! was entered: whatever others do while it waits, a mailbox can be
   * received from exactly if it has a message then, and had one at the entry or the actor was running; and the timer
   * is polled exactly if the actor was running at the entry, whoever has dropped handles since.
   */
  lemma GuardsDecide(s: System, es: seq<Event>, a: ActorId, r: RoleId)
    requires Reachable(s) && LoopEnabled(s, a, ReadGuards) && Exists(s, a, r)
    requires Valid(Apply(s, Loop(a, ReadGuards)), es) && AllForeign(es, a)
    ensures var x := s.actors[a]; var t := Final(Apply(s, Loop(a, ReadGuards)), es);
            && Exists(t, a, r)
            && (LoopEnabled(t, a, Received(r)) <==>
                  t.actors[a].lanes[r].queue != [] && (x.lanes[r].queue != [] || (x.running && x.strong > 1)))
            && (LoopEnabled(t, a, TimerFired) <==> x.running && x.strong > 1 && t.now >= t.actors[a].deadline)
  {
    hide Reachable, Valid, Final, Outside;
    var s1 := Apply(s, Loop(a, ReadGuards));
    var t := Final(s1, es);
    StepReachable(s, Loop(a, ReadGuards));
    RunReachable(s1, es);
    ForeignRun(s1, es, a);
    StaysWaiting(s1.actors[a], t.actors[a], r);
    assert s1.actors[a] == Guards(s.actors[a]) && s1.actors[a].lanes == s.actors[a].lanes;
    assert r in EnabledRoles(s.actors[a]) <==> s.actors[a].lanes[r].queue != [] || IsRunning(s.actors[a]);
    if t.actors[a].lanes[r].queue != [] { FrontRooted(t, a, r); }
  }

  lemma StaysWaiting(x: Actor, y: Actor, r: RoleId)
    requires Outside(x, y) && r in x.lanes
    ensures y.phase == x.phase && y.lanes.Keys == x.lanes.Keys
    ensures x.lanes[r].queue != [] ==> y.lanes[r].queue != []
  {
    assert Appended(x.lanes[r], y.lanes[r]);
  }

  lemma FrontRooted(s: System, a: ActorId, r: RoleId)
    requires Reachable(s) && Exists(s, a, r) && s.actors[a].lanes[r].queue != []
    ensures Rooted(s, s.actors[a].lanes[r].queue[0])
  {
    hide Reachable;
    LaneAt(s, a, r);
    var l := s.actors[a].lanes[r];
    assert l.enqueued[|l.began| + |l.dropped|] == l.queue[0];
    assert l.queue[0] in l.enqueued;
    MsgAt(s, l.queue[0]);
  }

  // ---- no wait ----

  /** Back at the top of the loop with empty mailboxes and no handle left, as when the last queued handler has ended. */
  predicate DoneAlone(s: System, a: ActorId) {
    a in s.actors
    && var x := s.actors[a];
    x.phase.LoopTop? && x.strong == 1 && AllEmpty(x)
  }

  lemma GuardsEnd(s: System, a: ActorId, l: LoopEvent)
    requires LoopEnabled(s, a, l) && DoneAlone(s, a)
    ensures l.ReadGuards? && a in ApplyLoop(s, a, l).actors
    ensures ApplyLoop(s, a, l).actors[a] == s.actors[a].(phase := Finalizing(Drained))
  {
    assert EnabledRoles(s.actors[a]) == {};
  }

  lemma DoneAloneStep(s: System, e: Event, a: ActorId)
    requires Reachable(s) && Enabled(s, e) && DoneAlone(s, a)
    ensures a in Apply(s, e).actors
    ensures Apply(s, e).actors[a] == s.actors[a] || Apply(s, e).actors[a] == s.actors[a].(phase := Finalizing(Drained))
  {
    hide Reachable, ApplyLoop, DoneAlone, LoopEnabled;
    if e.Loop? && e.a == a {
      GuardsEnd(s, a, e.l);
    } else {
      DoneIsolated(s, e, a);
    }
  }

  lemma DoneIsolated(s: System, e: Event, a: ActorId)
    requires Reachable(s) && Enabled(s, e) && DoneAlone(s, a) && !(e.Loop? && e.a == a)
    ensures a in Apply(s, e).actors && Apply(s, e).actors[a] == s.actors[a]
  {
    hide Reachable, Apply, Enabled;
    Isolated(s, e, a);
  }

  /**
   * If the handles are gone when the last queued handler ends, there is no wait for the watchdog: the loop can read
   * its guards at once, nothing else ever changes the actor before it does, and then it has ended through `else`.
   */
  lemma {:induction false} NoWait(s: System, es: seq<Event>, a: ActorId)
    requires Reachable(s) && Valid(s, es) && DoneAlone(s, a)
    ensures a in Final(s, es).actors
    ensures (Final(s, es).actors[a] == s.actors[a] && LoopEnabled(Final(s, es), a, ReadGuards))
            || HasExited(Final(s, es).actors[a], Drained)
    decreases |es|
  {
    hide Reachable, Apply, Enabled;
    if es != [] {
      DoneAloneStep(s, es[0], a);
      StepReachable(s, es[0]);
      if Apply(s, es[0]).actors[a] == s.actors[a] {
        NoWait(Apply(s, es[0]), es[1..], a);
      } else {
        ExitedForGood(Apply(s, es[0]), es[1..], a, Drained);
      }
    }
  }
}
