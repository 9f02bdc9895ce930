/** What becomes of messages once their actor has left its loop. */
module Aftermath {
  import opened Types
  import opened ActorSteps
  import opened Runtime
  import opened Ownership
  import opened Invariants
  import opened MessageProofs
  import opened MessageShapes
  import opened StructureProofs
  import opened LoopProofs
  import opened Reachability
  import opened Delivery
  import opened Replies
  import opened Lifetime

  /** Out of its loop: in stop or catch, closing, or dead. */
  predicate HasLeft(x: Actor) {
    x.phase.Finalizing? || x.phase.Ended()
  }

  // ---- when the exit handle answers ----

  lemma DeadStays(s: System, e: Event, a: ActorId)
    requires Enabled(s, e) && a in s.actors && s.actors[a].phase.Dead?
    ensures a in Apply(s, e).actors && Apply(s, e).actors[a].phase == s.actors[a].phase
    ensures Apply(s, e).actors[a].lanes == s.actors[a].lanes
  {
    hide Apply;
    ActorShape(s, e, a);
  }

  lemma {:induction false} DeadRun(s: System, es: seq<Event>, a: ActorId)
    requires Valid(s, es) && a in s.actors && s.actors[a].phase.Dead?
    ensures a in Final(s, es).actors && Final(s, es).actors[a].phase == s.actors[a].phase
    decreases |es|
  {
    hide Apply, Enabled;
    if es != [] {
      DeadStays(s, es[0], a);
      DeadRun(Apply(s, es[0]), es[1..], a);
    }
  }

  /** Only the end of its task makes an actor dead. */
  lemma DiesBy(s: System, e: Event, a: ActorId)
    requires Enabled(s, e) && (a in s.actors ==> !s.actors[a].phase.Dead?)
    ensures (a in Apply(s, e).actors && Apply(s, e).actors[a].phase.Dead?) <==> e == Loop(a, TaskEnded)
  {
    hide Apply;
    ActorSet(s, e);
    if a in s.actors {
      ActorShape(s, e, a);
    } else if a in Apply(s, e).actors {
      Started(s, e, a);
    }
  }

  /** The exit handle answers exactly from the end of the task on: not while stop or catch runs, always afterwards. */
  lemma {:induction false} ExitAnswers(s: System, es: seq<Event>, a: ActorId)
    requires Valid(s, es) && (a in s.actors ==> !s.actors[a].phase.Dead?)
    ensures (a in Final(s, es).actors && ExitPoll(Final(s, es).actors[a]).Some?) <==> Loop(a, TaskEnded) in es
    decreases |es|
  {
    hide Apply, Enabled;
    if es != [] {
      assert es == [es[0]] + es[1..];
      DiesBy(s, es[0], a);
      if es[0] == Loop(a, TaskEnded) {
        DeadRun(Apply(s, es[0]), es[1..], a);
      } else {
        ExitAnswers(Apply(s, es[0]), es[1..], a);
      }
    }
  }

  // ---- sends to any actor, one that has left its loop included ----

  /** The events that offer message m to its destination's mailbox. */
  predicate Offers(s: System, e: Event, m: MsgId)
    requires Enabled(s, e)
  {
    match e
    case Envelope(PollSend(k)) => k == m
    case Envelope(PollCaster(k)) => k == m && s.msgs[k].caster.Unsent?
    case Task(HelperSends(k)) => k == m
    case Task(FeedItem(_, k, _)) => k == m
    case Handler(a, Replied(n)) => n == m && s.msgs[s.actors[a].phase.msg].path.Mailbox?
    case _ => false
  }

  predicate Offered(g: Msg) {
    g.stage.Queued? || g.stage.Refused?
  }

  lemma FeedOffers(s: System, f: FeederId, m: MsgId, p: Payload)
    requires f in s.feeders && m !in s.msgs && Exists(s, s.feeders[f].to, s.feeders[f].role)
    ensures m in Feed(s, f, m, p).msgs
    ensures var g := Feed(s, f, m, p).msgs[m];
            g.to == s.feeders[f].to && g.stage == if Accepting(s.actors[g.to]) then Queued else Refused
    ensures Feed(s, f, m, p).msgs.Keys == s.msgs.Keys + {m}
  {}

  lemma ReplyOffers(s: System, m: MsgId, v: Value, n: MsgId)
    requires Rooted(s, m) && n !in s.msgs && s.msgs[m].path.Mailbox?
    ensures n in SendReply(s, m, v, n).msgs
    ensures var g := SendReply(s, m, v, n).msgs[n];
            g.to == s.msgs[m].path.to && g.stage == if Accepting(s.actors[g.to]) then Queued else Refused
  {}

  /**
   * A message offered to an actor is accepted exactly if the actor has not closed its receivers, whether or not it
   * has left its loop: while stop or catch runs, sends still succeed.
   */
  lemma AcceptedExactly(s: System, e: Event, m: MsgId)
    requires Reachable(s) && Enabled(s, e) && Offers(s, e, m)
    ensures m in Apply(s, e).msgs && Apply(s, e).msgs[m].to in s.actors
    ensures var g := Apply(s, e).msgs[m];
            g.stage == if s.actors[g.to].phase.Ended() then Refused else Queued
  {
    hide Reachable, Submit, Feed, SendReply;
    match e
    case Envelope(v) => MsgAt(s, m); SubmitMoves(s, m);
    case Task(t) =>
      if t.HelperSends? { SubmitMoves(s, m); } else { FeedOffers(s, t.f, m, Arguments(t.data)); }
    case Handler(a, h) =>
      var x := s.actors[a];
      ReplyOffers(SetActor(s, a, x.(phase := LoopTop)), x.phase.msg, x.phase.value, m);
    case _ =>
  }

  /** m was not offered before the step from s to t, and is now. */
  predicate NewlyOffered(s: System, t: System, m: MsgId) {
    m in t.msgs && Offered(t.msgs[m]) && (m in s.msgs ==> !Offered(s.msgs[m]))
  }

  lemma EnvelopeOffers(s: System, v: EnvelopeEvent, m: MsgId)
    requires EnvelopeEnabled(s, v) && NewlyOffered(s, ApplyEnvelope(s, v), m)
    ensures Offers(s, Envelope(v), m)
  {
    hide Submit;
    if (v.PollSend? || v.PollCaster?) && v.m != m { SubmitOnly(s, v.m, m); }
  }

  lemma TaskOffers(s: System, t: TaskEvent, m: MsgId)
    requires TaskEnabled(s, t) && NewlyOffered(s, ApplyTask(s, t), m)
    ensures Offers(s, Task(t), m)
  {
    hide Submit, Feed;
    if t.HelperSends? && t.m != m { SubmitOnly(s, t.m, m); }
    if t.FeedItem? && t.m != m { FeedOffersOne(s, t.f, t.m, Arguments(t.data), m); }
  }

  lemma HandlerOffers(s: System, a: ActorId, h: HandlerEvent, m: MsgId)
    requires HandlerEnabled(s, a, h) && NewlyOffered(s, ApplyHandler(s, a, h), m)
    ensures Offers(s, Handler(a, h), m)
  {
    hide Destroy, SendReply;
    var x := s.actors[a];
    if h.Panics? { DestroyMoves(SetActor(s, a, Crash(x, h.st)), x.phase.msg, Crashed); }
    if h.Replied? { ReplyMoves(SetActor(s, a, x.(phase := LoopTop)), x.phase.msg, x.phase.value, h.n); }
  }

  lemma LoopOffersNothing(s: System, a: ActorId, l: LoopEvent, m: MsgId)
    requires LoopEnabled(s, a, l)
    ensures !NewlyOffered(s, ApplyLoop(s, a, l), m)
  {
    hide Destroy;
    if l.QueueDropped? {
      DestroyMoves(SetActor(s, a, DropFront(s.actors[a], l.r)), s.actors[a].lanes[l.r].queue[0], Discarded);
    }
  }

  /** Nothing else puts a message into a mailbox, or has it refused. */
  lemma OnlyOffers(s: System, e: Event, m: MsgId)
    requires Enabled(s, e) && NewlyOffered(s, Apply(s, e), m)
    ensures Offers(s, e, m)
  {
    hide ApplyEnvelope, ApplyTask, ApplyHandler, ApplyLoop, Offers;
    match e
    case Tick =>
    case Handle(u) => HandleMoves(s, u);
    case Envelope(v) => EnvelopeOffers(s, v, m);
    case Task(t) => TaskOffers(s, t, m);
    case Handler(a, h) => HandlerOffers(s, a, h, m);
    case Loop(a, l) => LoopOffersNothing(s, a, l, m);
  }

  lemma SubmitOnly(s: System, k: MsgId, m: MsgId)
    requires Rooted(s, k) && m in Submit(s, k).msgs && k != m
    ensures m in s.msgs && Submit(s, k).msgs[m] == s.msgs[m]
  {}

  lemma FeedOffersOne(s: System, f: FeederId, k: MsgId, p: Payload, m: MsgId)
    requires f in s.feeders && k !in s.msgs && Exists(s, s.feeders[f].to, s.feeders[f].role)
    requires m in Feed(s, f, k, p).msgs && k != m
    ensures m in s.msgs && Feed(s, f, k, p).msgs[m] == s.msgs[m]
  {}

  // ---- what is accepted then is never handled ----

  /** Queued at an actor that has left its loop. */
  predicate TooLate(s: System, m: MsgId) {
    m in s.msgs && s.msgs[m].to in s.actors && HasLeft(s.actors[s.msgs[m].to])
    && (s.msgs[m].stage.Queued? || s.msgs[m].stage.Discarded?)
  }

  lemma TooLateStep(s: System, e: Event, m: MsgId)
    requires Reachable(s) && Enabled(s, e) && TooLate(s, m)
    ensures TooLate(Apply(s, e), m)
  {
    hide Reachable, Apply, MsgsOk, LanesOk, HandlersOk, WellFormed;
    PartsAt(s);
    OutStaysOut(s, e, s.msgs[m].to);
    if e.Loop? { LoopTakesQueued(s, e.a, e.l); }
    if e.Handler? { HandlerActsOnCurrent(s, e.a, e.h); }
    MsgShape(s, e, m);
  }

  /**
   * A message queued at an actor that has left its loop is never handled, in any later state of any run, although
   * its sender was told that it was accepted; if it was awaited, the only answer there can be is Hangup.
   */
  lemma {:induction false} NeverHandled(s: System, es: seq<Event>, m: MsgId)
    requires Reachable(s) && Valid(s, es) && TooLate(s, m)
    ensures TooLate(Final(s, es), m) && forall v :: !HandlerReturned(Final(s, es), m, v)
    ensures Final(s, es).msgs[m].caster.Resolved? ==> Final(s, es).msgs[m].caster.reply.Hangup?
    decreases |es|
  {
    hide Reachable, Apply, Enabled, HandlerReturned;
    if es == [] {
      MsgAt(s, m);
      forall v ensures !HandlerReturned(s, m, v) { QueuedNotLogged(s, m, v); }
    } else {
      TooLateStep(s, es[0], m);
      StepReachable(s, es[0]);
      NeverHandled(Apply(s, es[0]), es[1..], m);
    }
  }

  lemma QueuedNotLogged(s: System, m: MsgId, v: Value)
    requires Reachable(s) && m in s.msgs && (s.msgs[m].stage.Queued? || s.msgs[m].stage.Discarded?)
    ensures !HandlerReturned(s, m, v)
  {
    hide Reachable;
    if HandlerReturned(s, m, v) {
      var a := s.msgs[m].to;
      var x := s.actors[a];
      ActorAt(s, a);
      var i: nat :| i < |x.log| && x.log[i].msg == m;
      TakenFrom(s, a, i);
    }
  }

  // ---- exits through `else` ----

  /** An actor that was not stopped and broke its loop through `else` has lost nothing and can be sent nothing. */
  predicate CleanExit(x: Actor) {
    HasLeft(x) && x.phase.exit.Drained? && x.running ==>
      (forall r <- x.lanes :: x.lanes[r].queue == [] && x.lanes[r].dropped == [])
      && (!x.phase.Dead? ==> x.strong == 1)
  }

  ghost predicate CleanExits(s: System) {
    forall a <- s.actors :: CleanExit(s.actors[a])
  }

  /** Own events of an actor that has left its loop with empty mailboxes take nothing out of them. */
  lemma OwnAfterLoop(s: System, e: Event, a: ActorId)
    requires Enabled(s, e) && a in s.actors && HasLeft(s.actors[a]) && AllEmpty(s.actors[a])
    ensures var x, y := s.actors[a], Own(s, e, a);
            y.lanes == x.lanes && y.running == x.running && y.strong == x.strong
            && (e.Handler? && e.a == a ==> e.h.Resumes?)
            && (x.phase.Dead? ==> y.phase == x.phase)
  {}

  lemma CleanAfterLoop(s: System, e: Event, a: ActorId)
    requires Reachable(s) && Enabled(s, e) && a in s.actors && HasLeft(s.actors[a]) && CleanExit(s.actors[a])
    ensures a in Apply(s, e).actors && CleanExit(Apply(s, e).actors[a])
  {
    hide Reachable, Apply, Own;
    var x := s.actors[a];
    OutStaysOut(s, e, a);
    ActorShape(s, e, a);
    LeftStaysStopped(s, e, a);
    if x.phase.exit.Drained? && x.running {
      OwnAfterLoop(s, e, a);
      if !(e.Loop? && e.a == a) && !x.phase.Dead? { Isolated(s, e, a); }
      if e.Loop? && e.a == a { OwnLoopCount(s, a, e.l); }
    }
  }

  lemma LeftStaysStopped(s: System, e: Event, a: ActorId)
    requires Enabled(s, e) && a in s.actors && HasLeft(s.actors[a])
    ensures a in Apply(s, e).actors && Apply(s, e).actors[a].running == s.actors[a].running
  {
    hide Apply;
    ActorShape(s, e, a);
  }

  /** Until it is dead, an actor's own loop does not change its count once it has left the loop with empty mailboxes. */
  lemma OwnLoopCount(s: System, a: ActorId, l: LoopEvent)
    requires LoopEnabled(s, a, l) && HasLeft(s.actors[a]) && AllEmpty(s.actors[a])
    ensures var t := Apply(s, Loop(a, l));
            a in t.actors && t.actors[a].lanes == s.actors[a].lanes
            && (!t.actors[a].phase.Dead? ==> t.actors[a].strong == s.actors[a].strong)
  {}

  lemma CleanAtExit(s: System, e: Event, a: ActorId)
    requires Reachable(s) && Enabled(s, e) && a in s.actors && !HasLeft(s.actors[a])
    ensures a in Apply(s, e).actors && CleanExit(Apply(s, e).actors[a])
  {
    hide Reachable, Apply, Own, HasOtherOwner;
    NotYetLeft(s, e, a);
    var y := Apply(s, e).actors[a];
    if y.phase.Finalizing? && y.phase.exit.Drained? && y.running {
      ExitStep(s, e, Apply(s, e), a);
      GuardsCount(s, a);
      RunningMeans(s, a);
      LoopAt(s, a);
    }
  }

  lemma GuardsCount(s: System, a: ActorId)
    requires LoopEnabled(s, a, ReadGuards)
    ensures var t := Apply(s, Loop(a, ReadGuards));
            a in t.actors && t.actors[a].strong == s.actors[a].strong && t.actors[a].running == s.actors[a].running
  {}

  lemma NotYetLeft(s: System, e: Event, a: ActorId)
    requires Enabled(s, e) && a in s.actors && !HasLeft(s.actors[a])
    ensures a in Apply(s, e).actors && !Apply(s, e).actors[a].phase.Ended()
  {
    hide Apply;
    ActorShape(s, e, a);
  }

  lemma CleanStep(s: System, e: Event)
    requires Reachable(s) && Enabled(s, e) && CleanExits(s)
    ensures CleanExits(Apply(s, e))
  {
    hide Reachable, Apply, Enabled, CleanExit;
    forall a | a in Apply(s, e).actors ensures CleanExit(Apply(s, e).actors[a]) {
      if a in s.actors {
        if HasLeft(s.actors[a]) { CleanAfterLoop(s, e, a); } else { CleanAtExit(s, e, a); }
      } else {
        Started(s, e, a);
        StartsClean(e.u.roles, e.u.init);
      }
    }
  }

  lemma StartsClean(roles: set<RoleId>, init: UserState)
    ensures CleanExit(NewActor(roles, init))
  {}

  lemma {:induction false} CleanRun(s: System, es: seq<Event>)
    requires Reachable(s) && Valid(s, es) && CleanExits(s)
    ensures CleanExits(Final(s, es))
    decreases |es|
  {
    hide Reachable, Apply, Enabled, CleanExits;
    if es != [] {
      CleanStep(s, es[0]);
      StepReachable(s, es[0]);
      CleanRun(Apply(s, es[0]), es[1..]);
    }
  }

  lemma ReachableClean(s: System)
    requires Reachable(s)
    ensures CleanExits(s)
  {
    hide Enabled, Apply;
    var s0: System, es: seq<Event> :| Initial(s0) && Valid(s0, es) && s == Final(s0, es);
    RunNone(s0);
    CleanRun(s0, es);
  }

  // ---- exits by the timer ----

  /** An actor that its timer ended had not been stopped, and nobody has a handle of it. */
  predicate LoneExit(x: Actor) {
    HasLeft(x) && x.phase.exit.TimedOut? ==> x.running && (!x.phase.Dead? ==> x.strong == 1)
  }

  ghost predicate LoneExits(s: System) {
    forall a <- s.actors :: LoneExit(s.actors[a])
  }

  ghost predicate SameArrivals(x: Actor, y: Actor) {
    y.lanes.Keys == x.lanes.Keys && forall r <- x.lanes :: y.lanes[r].enqueued == x.lanes[r].enqueued
  }

  /** The rest of such an actor's own task. */
  lemma LoneOwnLoop(s: System, a: ActorId, l: LoopEvent)
    requires LoopEnabled(s, a, l) && TakesQueued(s, a, l) && HasLeft(s.actors[a]) && Unreachable(s, a)
    ensures var t := Apply(s, Loop(a, l));
            a in t.actors && SameArrivals(s.actors[a], t.actors[a])
            && (!t.actors[a].phase.Dead? ==> t.actors[a].strong == s.actors[a].strong)
  {}

  lemma LoneAfterLoop(s: System, e: Event, a: ActorId)
    requires Reachable(s) && Enabled(s, e) && a in s.actors && HasLeft(s.actors[a]) && LoneExit(s.actors[a])
    ensures a in Apply(s, e).actors && LoneExit(Apply(s, e).actors[a])
    ensures s.actors[a].phase.exit.TimedOut? ==> SameArrivals(s.actors[a], Apply(s, e).actors[a])
  {
    hide Reachable, Apply, Enabled, Unreachable, MsgsOk, LanesOk, HandlersOk, WellFormed, TakesQueued;
    var x := s.actors[a];
    OutStaysOut(s, e, a);
    LeftStaysStopped(s, e, a);
    if x.phase.exit.TimedOut? {
      if x.phase.Dead? {
        DeadStays(s, e, a);
      } else if e.Loop? && e.a == a {
        PartsAt(s);
        LastHandleGone(s, a);
        OwnLoopEnabled(s, e);
        LoopTakesQueued(s, a, e.l);
        LoneOwnLoop(s, a, e.l);
      } else {
        Isolated(s, e, a);
      }
    }
  }

  lemma OwnLoopEnabled(s: System, e: Event)
    requires Enabled(s, e) && e.Loop?
    ensures LoopEnabled(s, e.a, e.l)
  {}

  lemma LoneAtExit(s: System, e: Event, a: ActorId)
    requires Reachable(s) && Enabled(s, e) && a in s.actors && !HasLeft(s.actors[a])
    ensures a in Apply(s, e).actors && LoneExit(Apply(s, e).actors[a])
  {
    hide Reachable, Apply, Own, HasOtherOwner;
    NotYetLeft(s, e, a);
    var y := Apply(s, e).actors[a];
    if y.phase.Finalizing? && y.phase.exit.TimedOut? {
      ExitStep(s, e, Apply(s, e), a);
      TimerCount(s, a);
      RunningMeans(s, a);
    }
  }

  lemma TimerCount(s: System, a: ActorId)
    requires LoopEnabled(s, a, TimerFired)
    ensures var t := Apply(s, Loop(a, TimerFired));
            && t.msgs == s.msgs
            && a in t.actors && t.actors[a].strong == s.actors[a].strong && t.actors[a].running == s.actors[a].running
  {}

  lemma LoneStep(s: System, e: Event)
    requires Reachable(s) && Enabled(s, e) && LoneExits(s)
    ensures LoneExits(Apply(s, e))
  {
    hide Reachable, Apply, Enabled, LoneExit;
    forall a | a in Apply(s, e).actors ensures LoneExit(Apply(s, e).actors[a]) {
      if a in s.actors {
        if HasLeft(s.actors[a]) { LoneAfterLoop(s, e, a); } else { LoneAtExit(s, e, a); }
      } else {
        Started(s, e, a);
        StartsLone(e.u.roles, e.u.init);
      }
    }
  }

  lemma StartsLone(roles: set<RoleId>, init: UserState)
    ensures LoneExit(NewActor(roles, init))
  {}

  lemma {:induction false} LoneRun(s: System, es: seq<Event>)
    requires Reachable(s) && Valid(s, es) && LoneExits(s)
    ensures LoneExits(Final(s, es))
    decreases |es|
  {
    hide Reachable, Apply, Enabled, LoneExits;
    if es != [] {
      LoneStep(s, es[0]);
      StepReachable(s, es[0]);
      LoneRun(Apply(s, es[0]), es[1..]);
    }
  }

  lemma ReachableLone(s: System)
    requires Reachable(s)
    ensures LoneExits(s)
  {
    hide Enabled, Apply;
    var s0: System, es: seq<Event> :| Initial(s0) && Valid(s0, es) && s == Final(s0, es);
    RunNone(s0);
    LoneRun(s0, es);
  }

  /** After an exit by the timer nothing more arrives. */
  lemma {:induction false} LoneArrivals(s: System, es: seq<Event>, a: ActorId)
    requires Reachable(s) && Valid(s, es) && a in s.actors && HasLeft(s.actors[a]) && s.actors[a].phase.exit.TimedOut?
    ensures a in Final(s, es).actors && SameArrivals(s.actors[a], Final(s, es).actors[a])
    decreases |es|
  {
    hide Reachable, Apply, Enabled;
    if es != [] {
      ReachableLone(s);
      assert LoneExit(s.actors[a]);
      LoneAfterLoop(s, es[0], a);
      OutStaysOut(s, es[0], a);
      StepReachable(s, es[0]);
      LoneArrivals(Apply(s, es[0]), es[1..], a);
    }
  }

  // ---- what Hangup means ----

  /**
   * The documentation has Hangup mean that the actor panicked or called stop. It means exactly that unless the actor
   * was ended by its timer, which is neither.
   */
  lemma HangupMeans(s: System, m: MsgId)
    requires Reachable(s) && m in s.msgs && s.msgs[m].caster == Resolved(Hangup)
    ensures s.msgs[m].to in s.actors
    ensures var x := s.actors[s.msgs[m].to];
            HasLeft(x) && ((x.phase.exit.Panicked? || !x.running) <==> !x.phase.exit.TimedOut?)
  {
    hide Reachable;
    var g := s.msgs[m];
    MsgAt(s, m);
    if g.stage.Crashed? {
      CrashedIsLast(s, m);
      CrashedHasLeft(s, m);
    } else {
      DiscardedHasLeft(s, m);
      ReachableClean(s);
      assert CleanExit(s.actors[g.to]);
    }
    ReachableLone(s);
    assert LoneExit(s.actors[g.to]);
  }

  lemma CrashedHasLeft(s: System, m: MsgId)
    requires Reachable(s) && m in s.msgs && s.msgs[m].stage.Crashed? && s.msgs[m].to in s.actors
    ensures var x := s.actors[s.msgs[m].to]; HasLeft(x) && x.phase.exit.Panicked?
  {
    ReachableInv(s);
  }

  lemma DiscardedHasLeft(s: System, m: MsgId)
    requires Reachable(s) && m in s.msgs && s.msgs[m].stage.Discarded?
    ensures Exists(s, s.msgs[m].to, s.msgs[m].role) && s.actors[s.msgs[m].to].phase.Ended()
    ensures s.actors[s.msgs[m].to].lanes[s.msgs[m].role].dropped != []
  {
    hide Reachable, Times;
    var g := s.msgs[m];
    AcceptedAt(s, m);
    OnePlace(s, m, g.to, g.role);
    LoopAt(s, g.to);
    assert Times([], m) == 0 by { TimesOfNone(m); }
  }

  lemma TimesOfNone(m: MsgId)
    ensures Times([], m) == 0
  {}
}
