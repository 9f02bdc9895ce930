/** The generated event loop as code: the Context it owns, its receivers, its timer and its `loop { select! }`. */
module EventLoop {
  import opened Types
  import opened ActorSteps
  import opened Invariants
  import opened Runtime
  import opened Reachability
  import opened StructureProofs
  import opened Ownership
  import opened Lifetime
  import opened Drain
  import Worlds

  type Shell = Worlds.Shell
  type World = Worlds.World

  // ---- what the scheduler and the other tasks decide for one pass of select! ----

  /** The branch select! finds ready. */
  datatype Pick = TakeFrom(role: RoleId) | TakeTimer

  /** What the rest of the system does to an actor over some time: its counts afterwards, and what arrives. */
  datatype Others = Others(strong: int, external: nat, arrivals: map<RoleId, seq<MsgId>>)

  /** A handler call: others act during it, it may call stop, it completes or panics, and others act until its reply. */
  datatype Effect = Effect(during: Others, stops: bool, st: UserState, result: Option<Value>, after: Others)

  /** One wait in select!: what others did, when the task was polled, what was ready, and what the handler did. */
  datatype Turn = Turn(others: Others, now: nat, pick: Pick, effect: Effect)

  // ---- the loop as a function on the actor's record ----

  function Grown(l: Lane, ms: seq<MsgId>): Lane {
    l.(queue := l.queue + ms, enqueued := l.enqueued + ms)
  }

  function Arriving(o: Others, r: RoleId): seq<MsgId> {
    if r in o.arrivals then o.arrivals[r] else []
  }

  /** Others send messages and clone and drop handles. */
  function Absorb(x: Actor, o: Others): Actor {
    x.(strong := o.strong, external := o.external, lanes := map r | r in x.lanes :: Grown(x.lanes[r], Arriving(o, r)))
  }

  /** The end of a handler call, and its reply. */
  function EndHandler(x: Actor, e: Effect): Actor
    requires HandlerFree(x)
  {
    match e.result
    case Some(v) => Absorb(Return(x, e.st, v), e.after).(phase := LoopTop)
    case None => Absorb(Crash(x, e.st), e.after)
  }

  /** A whole handler call and its reply, as the loop sees it. */
  function RunHandler(x: Actor, e: Effect): Actor
    requires HandlerFree(x)
  {
    var y := Absorb(x, e.during);
    EndHandler(y.(running := y.running && !e.stops), e)
  }

  /** One pass: read the guards unless the task is still inside an earlier select!, wait, and run what is ready. */
  function Pass(x: Actor, t: Turn): Actor
    requires x.phase.LoopTop? || x.phase.Select?
    requires x.awaiting.None?
  {
    var g := if x.phase.LoopTop? then Guards(x) else x;
    if g.phase.Finalizing? then g
    else
      var w := Absorb(g, t.others);
      match t.pick
      case TakeFrom(r) =>
        if ReceiveEnabled(w, r) then RunHandler(Receive(w, r, t.now), t.effect) else w
      case TakeTimer => if TimerEnabled(w, t.now) then Timer(w, t.now) else w
  }

  /** The loop over a schedule, up to its break, a panic, or the end of the schedule. */
  function RunLoop(x: Actor, ts: seq<Turn>): Actor
    requires x.awaiting.None?
    decreases |ts|
  {
    if ts == [] || !(x.phase.LoopTop? || x.phase.Select?) then x
    else
      RunLoop(Pass(x, ts[0]), ts[1..])
  }

  lemma PassShape(x: Actor, t: Turn)
    requires (x.phase.LoopTop? || x.phase.Select?) && x.awaiting.None?
    ensures Pass(x, t).awaiting.None?
    ensures Pass(x, t).phase.LoopTop? || Pass(x, t).phase.Select? || Pass(x, t).phase.Finalizing?
    ensures x.phase.LoopTop? ==> Guards(x).phase.Select? || Guards(x).phase.Finalizing?
  {}

  // ---- a pass of the loop is a run of the runtime ----

  /** While a's handler runs: events of others, and what the handler does before it ends. */
  predicate InCall(e: Event, a: ActorId) {
    Foreign(e, a) || (e.Handler? && (e.h.GetShell? || e.h.StopCalled? || e.h.Awaits? || e.h.Resumes?))
  }

  predicate AllInCall(es: seq<Event>, a: ActorId) {
    forall e <- es :: InCall(e, a)
  }

  predicate CallsStop(es: seq<Event>, a: ActorId) {
    Handler(a, StopCalled) in es
  }

  /** What happened to an actor's record from outside. */
  function Between(x: Actor, y: Actor): Others {
    Others(y.strong, y.external,
           map r | r in x.lanes && r in y.lanes && |x.lanes[r].enqueued| <= |y.lanes[r].enqueued| ::
             y.lanes[r].enqueued[|x.lanes[r].enqueued|..])
  }

  lemma OutsideAbsorbed(x: Actor, y: Actor)
    requires Outside(x, y)
    ensures y == Absorb(x, Between(x, y))
  {
    forall r | r in x.lanes ensures y.lanes[r] == Grown(x.lanes[r], Arriving(Between(x, y), r)) {
      assert Appended(x.lanes[r], y.lanes[r]);
    }
    assert y.lanes == Absorb(x, Between(x, y)).lanes;
  }

  /** The same while a's own handler runs, but for calls of stop and what the handler awaits meanwhile. */
  lemma {:induction false} CallRun(s: System, es: seq<Event>, a: ActorId)
    requires Valid(s, es) && AllInCall(es, a) && a in s.actors && s.actors[a].phase.Handling?
    ensures a in Final(s, es).actors
    ensures var x, y := s.actors[a], Final(s, es).actors[a];
            Outside(x.(running := x.running && !CallsStop(es, a), awaiting := y.awaiting), y)
    decreases |es|
  {
    hide Apply, Enabled, Outside;
    var x := s.actors[a];
    if es == [] {
      assert x.(running := x.running && !CallsStop(es, a), awaiting := x.awaiting) == x;
      CountOutside(x, x.strong, x.external);
    } else {
      var t := Apply(s, es[0]);
      CallStep(s, es[0], a);
      CallRun(t, es[1..], a);
      var y, z := t.actors[a], Final(s, es).actors[a];
      assert es == [es[0]] + es[1..];
      assert CallsStop(es, a) <==> es[0] == Handler(a, StopCalled) || CallsStop(es[1..], a);
      var stops := CallsStop(es[1..], a);
      var x1 := x.(running := x.running && es[0] != Handler(a, StopCalled), awaiting := y.awaiting);
      OutsideUpdated(x1, y, x1.running && !stops, z.awaiting);
      OutsideTwice(x1.(running := x1.running && !stops, awaiting := z.awaiting),
                   y.(running := y.running && !stops, awaiting := z.awaiting), z);
    }
  }

  lemma OutsideUpdated(x: Actor, y: Actor, running: bool, awaiting: Option<MsgId>)
    requires Outside(x, y)
    ensures y.running == x.running
    ensures Outside(x.(running := running, awaiting := awaiting), y.(running := running, awaiting := awaiting))
  {}

  lemma CallStep(s: System, e: Event, a: ActorId)
    requires Enabled(s, e) && InCall(e, a) && a in s.actors && s.actors[a].phase.Handling?
    ensures a in Apply(s, e).actors && Apply(s, e).actors[a].phase == s.actors[a].phase
    ensures var x, y := s.actors[a], Apply(s, e).actors[a];
            Outside(x.(running := x.running && e != Handler(a, StopCalled), awaiting := y.awaiting), y)
  {
    hide Apply, Enabled;
    ActorShape(s, e, a);
  }

  /** A handler call in the runtime: events during it, its end, events until the reply, and a forwarded result's id. */
  datatype Call = Call(during: seq<Event>, end: HandlerEvent, after: seq<Event>, n: MsgId)

  /** The handler may run as c says, from the state in which it begins. */
  ghost predicate CallPossible(s: System, a: ActorId, c: Call) {
    && Valid(s, c.during) && AllInCall(c.during, a)
    && var t := Final(s, c.during);
    && (c.end.Returned? || c.end.Panics?) && Enabled(t, Handler(a, c.end))
    && var u := Apply(t, Handler(a, c.end));
    c.end.Returned? ==> Valid(u, c.after) && AllForeign(c.after, a) && c.n !in Final(u, c.after).msgs
  }

  function CallEvents(a: ActorId, c: Call): seq<Event> {
    c.during + [Handler(a, c.end)] + if c.end.Returned? then c.after + [Handler(a, Replied(c.n))] else []
  }

  /** The same as the loop sees it. */
  ghost function EffectOf(s: System, a: ActorId, c: Call): Effect
    requires a in s.actors && CallPossible(s, a, c) && Valid(s, CallEvents(a, c))
    requires a in Final(s, c.during).actors && a in Final(s, CallEvents(a, c)).actors
    requires HandlerFree(Final(s, c.during).actors[a])
  {
    var x := Final(s, c.during).actors[a];
    var y := Final(s, CallEvents(a, c)).actors[a];
    Effect(Between(s.actors[a], x), CallsStop(c.during, a), c.end.st,
           if c.end.Returned? then Some(c.end.v) else None,
           Between(OwnHandler(x, c.end), y))
  }

  lemma ReturnedIsOwn(s: System, a: ActorId, st: UserState, v: Value)
    requires Enabled(s, Handler(a, Returned(st, v)))
    ensures var t := Apply(s, Handler(a, Returned(st, v)));
            a in t.actors && t.actors[a] == Return(s.actors[a], st, v) && t.msgs == s.msgs
  {}

  lemma CrashIsOwn(s: System, a: ActorId, st: UserState)
    requires Enabled(s, Handler(a, Panics(st)))
    ensures var t := Apply(s, Handler(a, Panics(st)));
            a in t.actors && Outside(Crash(s.actors[a], st), t.actors[a])
  {
    ActorShape(s, Handler(a, Panics(st)), a);
  }

  lemma RepliedIsOwn(s: System, a: ActorId, n: MsgId)
    requires Enabled(s, Handler(a, Replied(n)))
    ensures var t := Apply(s, Handler(a, Replied(n)));
            a in t.actors && Outside(s.actors[a].(phase := LoopTop), t.actors[a])
  {
    ActorShape(s, Handler(a, Replied(n)), a);
  }

  lemma OutsideReplied(x: Actor, y: Actor)
    requires Outside(x, y) && x.phase.Replying?
    ensures y.phase.Replying? && Outside(x.(phase := LoopTop), y.(phase := LoopTop))
  {}

  /** The reply of a completed handler can always be sent, and only others touch the record meanwhile. */
  lemma ReplyIsRun(s: System, a: ActorId, after: seq<Event>, n: MsgId)
    requires Reachable(s) && a in s.actors && s.actors[a].phase.Replying?
    requires Valid(s, after) && AllForeign(after, a) && n !in Final(s, after).msgs
    ensures Valid(s, after + [Handler(a, Replied(n))])
    ensures var t := Final(s, after + [Handler(a, Replied(n))]);
            a in t.actors && Outside(s.actors[a].(phase := LoopTop), t.actors[a])
  {
    hide Reachable, Apply, Valid, Final, Outside;
    var u := Final(s, after);
    ForeignRun(s, after, a);
    OutsideReplied(s.actors[a], u.actors[a]);
    RunReachable(s, after);
    CurrentRooted(u, a);
    RepliedIsOwn(u, a, n);
    RunAppend(s, after, Handler(a, Replied(n)));
    OutsideTwice(s.actors[a].(phase := LoopTop), u.actors[a].(phase := LoopTop),
                 Final(s, after + [Handler(a, Replied(n))]).actors[a]);
  }

  /** Up to its end, a handler call leaves the record that RunHandler has at that point. */
  lemma HandlerEnds(s: System, a: ActorId, c: Call)
    requires Reachable(s) && a in s.actors && HandlerFree(s.actors[a]) && CallPossible(s, a, c)
    ensures a in Final(s, c.during).actors && HandlerFree(Final(s, c.during).actors[a])
    ensures var x, y := s.actors[a], Final(s, c.during).actors[a];
            var z := Absorb(x, Between(x, y)); y == z.(running := z.running && !CallsStop(c.during, a))
    ensures Valid(s, c.during + [Handler(a, c.end)])
    ensures Final(s, c.during + [Handler(a, c.end)]) == Apply(Final(s, c.during), Handler(a, c.end))
  {
    hide Reachable, Apply, Valid, Final, Outside, Between;
    var x, y := s.actors[a], Final(s, c.during).actors[a];
    CallRun(s, c.during, a);
    EndsFree(Final(s, c.during), a, c.end);
    OutsideAbsorbed(x.(running := x.running && !CallsStop(c.during, a), awaiting := y.awaiting), y);
    BetweenUpdated(x, y, x.running && !CallsStop(c.during, a));
    RunAppend(s, c.during, Handler(a, c.end));
  }

  lemma EndsFree(s: System, a: ActorId, h: HandlerEvent)
    requires Enabled(s, Handler(a, h)) && (h.Returned? || h.Panics?)
    ensures a in s.actors && HandlerFree(s.actors[a])
  {}

  lemma BetweenUpdated(x: Actor, y: Actor, running: bool)
    ensures Between(x.(running := running, awaiting := y.awaiting), y) == Between(x, y)
  {}

  /** A handler call of the runtime, with the loop's own events enabled all along, leaves the record of RunHandler. */
  lemma CallIsRun(s: System, a: ActorId, c: Call)
    requires Reachable(s) && a in s.actors && HandlerFree(s.actors[a]) && CallPossible(s, a, c)
    ensures Valid(s, CallEvents(a, c)) && a in Final(s, CallEvents(a, c)).actors
    ensures a in Final(s, c.during).actors && HandlerFree(Final(s, c.during).actors[a])
    ensures Final(s, CallEvents(a, c)).actors[a] == RunHandler(s.actors[a], EffectOf(s, a, c))
  {
    hide Reachable, Apply, Enabled, Valid, Final, Outside, Between, Absorb;
    HandlerEnds(s, a, c);
    var es := c.during + [Handler(a, c.end)];
    var t := Final(s, c.during);
    var u := Final(s, es);
    match c.end
    case Panics(st) =>
      assert CallEvents(a, c) == es;
      CrashIsOwn(t, a, st);
      OutsideAbsorbed(Crash(t.actors[a], st), u.actors[a]);
    case Returned(st, v) =>
      ReturnedIsOwn(t, a, st, v);
      RunReachable(s, es);
      ReplyIsRun(u, a, c.after, c.n);
      RunConcat(s, es, c.after + [Handler(a, Replied(c.n))]);
      assert CallEvents(a, c) == es + (c.after + [Handler(a, Replied(c.n))]);
      var y := Final(s, CallEvents(a, c)).actors[a];
      OutsideAbsorbed(u.actors[a].(phase := LoopTop), y);
      AbsorbPhase(u.actors[a], y);
    case _ =>
  }

  lemma AbsorbPhase(x: Actor, y: Actor)
    ensures Absorb(x.(phase := LoopTop), Between(x.(phase := LoopTop), y))
         == Absorb(x, Between(x, y)).(phase := LoopTop)
  {}

  // ---- the whole pass ----

  /** What the rest of the system does around one pass, and the handler call if there is one. */
  datatype Around = Around(others: seq<Event>, pick: Pick, call: Call)

  /** Inside select!: the guards have been read, at the top of the loop just now. */
  ghost function Entered(s: System, a: ActorId): System
    requires a in s.actors
  {
    if LoopEnabled(s, a, ReadGuards) then Apply(s, Loop(a, ReadGuards)) else s
  }

  function EnterEvents(s: System, a: ActorId): seq<Event> {
    if LoopEnabled(s, a, ReadGuards) then [Loop(a, ReadGuards)] else []
  }

  /** The own events of the pass and of its handler call, once others have done their part. */
  function PickEvents(s: System, a: ActorId, w: Around): seq<Event> {
    match w.pick
    case TakeFrom(r) => if LoopEnabled(s, a, Received(r)) then [Loop(a, Received(r))] + CallEvents(a, w.call) else []
    case TakeTimer => if LoopEnabled(s, a, TimerFired) then [Loop(a, TimerFired)] else []
  }

  /** Others may do from s what w says. */
  ghost predicate Possible(s: System, a: ActorId, w: Around) {
    && a in s.actors
    && var t := Entered(s, a);
    a in t.actors
    && (t.actors[a].phase.Select? ==>
          && Valid(t, w.others) && AllForeign(w.others, a)
          && var u := Final(t, w.others);
          w.pick.TakeFrom? && LoopEnabled(u, a, Received(w.pick.role)) ==>
            CallPossible(Apply(u, Loop(a, Received(w.pick.role))), a, w.call))
  }

  ghost function EventsOf(s: System, a: ActorId, w: Around): seq<Event>
    requires Possible(s, a, w)
  {
    var t := Entered(s, a);
    EnterEvents(s, a)
    + if t.actors[a].phase.Select? then w.others + PickEvents(Final(t, w.others), a, w) else []
  }

  lemma EnterIsRun(s: System, a: ActorId)
    requires Reachable(s) && a in s.actors && (s.actors[a].phase.LoopTop? || s.actors[a].phase.Select?)
    ensures Valid(s, EnterEvents(s, a)) && Final(s, EnterEvents(s, a)) == Entered(s, a)
    ensures a in Entered(s, a).actors
    ensures Entered(s, a).actors[a] == if s.actors[a].phase.LoopTop? then Guards(s.actors[a]) else s.actors[a]
    ensures Reachable(Entered(s, a))
  {
    hide Reachable, Guards;
    if LoopEnabled(s, a, ReadGuards) {
      StepReachable(s, Loop(a, ReadGuards));
      assert Valid(Entered(s, a), []);
      assert [Loop(a, ReadGuards)][1..] == [];
    }
  }

  lemma ReceivedIsOwn(s: System, a: ActorId, r: RoleId)
    requires Reachable(s) && a in s.actors && ReceiveEnabled(s.actors[a], r)
    ensures LoopEnabled(s, a, Received(r))
    ensures var t := Apply(s, Loop(a, Received(r)));
            a in t.actors && t.actors[a] == Receive(s.actors[a], r, s.now)
  {
    hide Reachable;
    FrontRooted(s, a, r);
  }

  lemma TimerIsOwn(s: System, a: ActorId)
    requires LoopEnabled(s, a, TimerFired)
    ensures var t := Apply(s, Loop(a, TimerFired)); a in t.actors && t.actors[a] == Timer(s.actors[a], s.now)
  {}

  /** What happens to the record once others have done their part. */
  function Picked(x: Actor, t: Turn): Actor
    requires x.phase.Select? && x.awaiting.None?
  {
    match t.pick
    case TakeFrom(r) => if ReceiveEnabled(x, r) then RunHandler(Receive(x, r, t.now), t.effect) else x
    case TakeTimer => if TimerEnabled(x, t.now) then Timer(x, t.now) else x
  }

  /** The turn is what the loop sees of the handler call that follows, if there is one. */
  ghost predicate SeesCall(s: System, a: ActorId, w: Around, t: Turn) {
    w.pick.TakeFrom? && LoopEnabled(s, a, Received(w.pick.role)) && (w.call.end.Returned? || w.call.end.Panics?) ==>
      t.effect.stops == CallsStop(w.call.during, a) && t.effect.st == w.call.end.st
      && t.effect.result == if w.call.end.Returned? then Some(w.call.end.v) else None
  }

  /** The turn is what the loop sees of w. */
  ghost predicate Sees(s: System, a: ActorId, w: Around, t: Turn)
    requires Possible(s, a, w)
  {
    var u := Entered(s, a);
    u.actors[a].phase.Select? ==>
      var v := Final(u, w.others);
      a in v.actors && t.pick == w.pick && t.now == v.now && t.others == Between(u.actors[a], v.actors[a])
      && SeesCall(v, a, w, t)
  }

  lemma TakeIsRun(s: System, a: ActorId, r: RoleId, c: Call) returns (e: Effect)
    requires Reachable(s) && a in s.actors && ReceiveEnabled(s.actors[a], r) && s.actors[a].awaiting.None?
    requires LoopEnabled(s, a, Received(r)) && CallPossible(Apply(s, Loop(a, Received(r))), a, c)
    ensures Valid(s, [Loop(a, Received(r))] + CallEvents(a, c))
    ensures var t := Final(s, [Loop(a, Received(r))] + CallEvents(a, c));
            a in t.actors && t.actors[a] == RunHandler(Receive(s.actors[a], r, s.now), e)
    ensures e.stops == CallsStop(c.during, a) && (c.end.Returned? || c.end.Panics?) && e.st == c.end.st
    ensures e.result == if c.end.Returned? then Some(c.end.v) else None
  {
    hide Reachable, Apply, Valid, Final, RunHandler, LoopEnabled, Between;
    ReceivedIsOwn(s, a, r);
    var first := Loop(a, Received(r));
    var u := Apply(s, first);
    StepReachable(s, first);
    RunOne(s, first);
    CallIsRun(u, a, c);
    RunConcat(s, [first], CallEvents(a, c));
    e := EffectOf(u, a, c);
  }

  lemma PickIsRun(s: System, a: ActorId, w: Around, o: Others) returns (t: Turn)
    requires Reachable(s) && a in s.actors && s.actors[a].phase.Select? && s.actors[a].awaiting.None?
    requires w.pick.TakeFrom? && LoopEnabled(s, a, Received(w.pick.role)) ==>
               CallPossible(Apply(s, Loop(a, Received(w.pick.role))), a, w.call)
    ensures Valid(s, PickEvents(s, a, w)) && a in Final(s, PickEvents(s, a, w)).actors
    ensures t.others == o && t.pick == w.pick && t.now == s.now && SeesCall(s, a, w, t)
    ensures Final(s, PickEvents(s, a, w)).actors[a] == Picked(s.actors[a], t)
  {
    hide Reachable, Apply, Valid, Final, CallPossible, RunHandler, Timer, Receive;
    var x := s.actors[a];
    t := Turn(o, s.now, w.pick, Effect(o, false, x.state, None, o));
    RunNone(s);
    match w.pick
    case TakeFrom(r) =>
      if ReceiveEnabled(x, r) {
        ReceivedIsOwn(s, a, r);
        var e := TakeIsRun(s, a, r, w.call);
        t := Turn(o, s.now, w.pick, e);
      }
    case TakeTimer =>
      if LoopEnabled(s, a, TimerFired) {
        TimerIsOwn(s, a);
        RunOne(s, Loop(a, TimerFired));
      }
  }

  lemma PassRuns(s: System, a: ActorId, w: Around) returns (t: Turn)
    requires Reachable(s) && Possible(s, a, w)
    requires s.actors[a].phase.LoopTop? || s.actors[a].phase.Select?
    ensures s.actors[a].awaiting.None? && Sees(s, a, w, t)
    ensures Valid(s, EventsOf(s, a, w)) && a in Final(s, EventsOf(s, a, w)).actors
    ensures Final(s, EventsOf(s, a, w)).actors[a] == Pass(s.actors[a], t)
  {
    hide Reachable, Valid, Final, Apply, Entered, EnterEvents, PickEvents, SeesCall, Outside, Between, CallPossible;
    LoopAt(s, a);
    EnterIsRun(s, a);
    var u := Entered(s, a);
    var x := u.actors[a];
    if x.phase.Select? {
      var v := Final(u, w.others);
      ForeignRun(u, w.others, a);
      RunReachable(u, w.others);
      OutsideAbsorbed(x, v.actors[a]);
      t := PickIsRun(v, a, w, Between(x, v.actors[a]));
      RunConcat(u, w.others, PickEvents(v, a, w));
      RunConcat(s, EnterEvents(s, a), w.others + PickEvents(v, a, w));
    } else {
      var o := Others(0, 0, map[]);
      t := Turn(o, 0, w.pick, Effect(o, false, x.state, None, o));
      assert EventsOf(s, a, w) == EnterEvents(s, a);
    }
  }

  /**
   * A pass of the loop, from any reachable state and whatever the rest of the system does around it, is a run of the
   * runtime: the loop's own events are enabled when it takes them, and the actor's record at the end is Pass's.
   */
  lemma PassIsRun(s: System, a: ActorId, w: Around)
    requires Reachable(s) && Possible(s, a, w)
    requires s.actors[a].phase.LoopTop? || s.actors[a].phase.Select?
    ensures Valid(s, EventsOf(s, a, w)) && a in Final(s, EventsOf(s, a, w)).actors && s.actors[a].awaiting.None?
    ensures exists t :: Sees(s, a, w, t) && Final(s, EventsOf(s, a, w)).actors[a] == Pass(s.actors[a], t)
  {
    hide *;
    var t := PassRuns(s, a, w);
  }

  /** Others may do, one pass after the other, what ws says. */
  ghost predicate AllPossible(s: System, a: ActorId, ws: seq<Around>)
    decreases |ws|
  {
    ws == [] || !InSelectLoop(s, a)
    || (Possible(s, a, ws[0])
        && (Valid(s, EventsOf(s, a, ws[0])) ==> AllPossible(Final(s, EventsOf(s, a, ws[0])), a, ws[1..])))
  }

  predicate InSelectLoop(s: System, a: ActorId) {
    a in s.actors && (s.actors[a].phase.LoopTop? || s.actors[a].phase.Select?)
  }

  /** The loop's record after a run of the runtime that consists of passes. */
  ghost predicate RunsAs(s: System, a: ActorId, ws: seq<Around>, es: seq<Event>, ts: seq<Turn>)
    decreases |ws|
  {
    if ws == [] || !InSelectLoop(s, a) then es == [] && ts == []
    else
      && ts != [] && Possible(s, a, ws[0]) && Sees(s, a, ws[0], ts[0])
      && EventsOf(s, a, ws[0]) <= es && Valid(s, EventsOf(s, a, ws[0]))
      && RunsAs(Final(s, EventsOf(s, a, ws[0])), a, ws[1..], es[|EventsOf(s, a, ws[0])|..], ts[1..])
  }

  /** The whole loop, up to its break or any number of passes, is a run of the runtime, with RunLoop's record. */
  lemma {:induction false} LoopIsRun(s: System, a: ActorId, ws: seq<Around>)
    requires Reachable(s) && a in s.actors && s.actors[a].awaiting.None? && AllPossible(s, a, ws)
    ensures exists es, ts ::
              RunsAs(s, a, ws, es, ts) && Valid(s, es) && a in Final(s, es).actors
              && Final(s, es).actors[a] == RunLoop(s.actors[a], ts)
    decreases |ws|
  {
    hide Reachable, Valid, Final, Pass, Possible, Sees, EventsOf;
    if ws == [] || !InSelectLoop(s, a) {
      RunNone(s);
      assert RunsAs(s, a, ws, [], []) && RunLoop(s.actors[a], []) == s.actors[a];
    } else {
      var t := PassRuns(s, a, ws[0]);
      var es := EventsOf(s, a, ws[0]);
      RunReachable(s, es);
      PassShape(s.actors[a], t);
      LoopIsRun(Final(s, es), a, ws[1..]);
      var fs, ts :| RunsAs(Final(s, es), a, ws[1..], fs, ts) && Valid(Final(s, es), fs)
                    && a in Final(Final(s, es), fs).actors
                    && Final(Final(s, es), fs).actors[a] == RunLoop(Final(s, es).actors[a], ts);
      RunConcat(s, es, fs);
      assert (es + fs)[|es|..] == fs && ([t] + ts)[1..] == ts;
      assert RunsAs(s, a, ws, es + fs, [t] + ts);
    }
  }

  // ---- a stopped loop breaks ----

  predicate NoArrivals(o: Others) {
    o.arrivals == map[]
  }

  /** The branch picked is ready, nothing arrives any more, and the handler does not panic. */
  predicate Quiet(x: Actor, t: Turn) {
    && NoArrivals(t.others) && NoArrivals(t.effect.during) && NoArrivals(t.effect.after) && t.effect.result.Some?
    && (EnabledRoles(x) != {} ==> t.pick.TakeFrom? && t.pick.role in EnabledRoles(x))
  }

  predicate QuietTurns(x: Actor, ts: seq<Turn>)
    requires x.awaiting.None?
    decreases |ts|
  {
    ts == [] || !x.phase.LoopTop? || (Quiet(x, ts[0]) && QuietTurns(Pass(x, ts[0]), ts[1..]))
  }

  lemma AbsorbNothing(x: Actor, o: Others)
    requires NoArrivals(o)
    ensures Absorb(x, o) == x.(strong := o.strong, external := o.external)
  {
    forall r | r in x.lanes ensures Grown(x.lanes[r], Arriving(o, r)) == x.lanes[r] {
      assert Arriving(o, r) == [];
    }
    assert Absorb(x, o).lanes == x.lanes;
  }

  /** A quiet pass of a stopped loop with a message waiting handles one message. */
  lemma StoppedPass(x: Actor, t: Turn)
    requires x.phase.LoopTop? && !x.running && x.awaiting.None? && Quiet(x, t) && EnabledRoles(x) != {}
    ensures Pass(x, t).phase.LoopTop? && !Pass(x, t).running && Pass(x, t).awaiting.None?
    ensures Backlog(Pass(x, t)) + 1 == Backlog(x)
    ensures |Pass(x, t).log| == |x.log| + 1
  {
    var w := Absorb(Guards(x), t.others);
    AbsorbNothing(Guards(x), t.others);
    var r := t.pick.role;
    assert ReceiveEnabled(w, r);
    var y := Receive(w, r, t.now);
    AbsorbNothing(y, t.effect.during);
    var z := Absorb(y, t.effect.during);
    AbsorbNothing(Return(z.(running := false), t.effect.st, t.effect.result.value), t.effect.after);
    assert Pass(x, t).lanes == y.lanes;
    assert y.lanes.Keys == x.lanes.Keys;
    assert QueueLength(y.lanes)(r) == QueueLength(x.lanes)(r) - 1;
    SumChange(x.lanes.Keys, QueueLength(x.lanes), QueueLength(y.lanes), r);
  }

  /** With nothing arriving, a stopped loop breaks through `else` once it has handled what was queued. */
  lemma {:induction false} StoppedLoopBreaks(x: Actor, ts: seq<Turn>)
    requires x.phase.LoopTop? && !x.running && x.awaiting.None?
    requires QuietTurns(x, ts) && |ts| > Backlog(x)
    ensures RunLoop(x, ts).phase == Finalizing(Drained)
    ensures |RunLoop(x, ts).log| == |x.log| + Backlog(x) && AllEmpty(RunLoop(x, ts))
    decreases |ts|
  {
    if EnabledRoles(x) == {} {
      NothingLeft(x);
      assert Pass(x, ts[0]) == x.(phase := Finalizing(Drained));
    } else {
      StoppedPass(x, ts[0]);
      StoppedLoopBreaks(Pass(x, ts[0]), ts[1..]);
    }
  }

  lemma NothingLeft(x: Actor)
    requires EnabledRoles(x) == {}
    ensures AllEmpty(x) && Backlog(x) == 0
  {
    forall r | r in x.lanes ensures x.lanes[r].queue == [] {
      assert r !in EnabledRoles(x);
    }
    NoneQueued(x);
  }

  // ---- the objects ----

  class Context {
    const shell: Shell
    var running: bool

    /** The Context takes over one handle. */
    constructor (shell: Shell)
      ensures this.shell == shell && running
    {
      this.shell := shell;
      running := true;
    }

    predicate IsRunning()
      reads this, shell
    {
      shell.strong > 1 && running
    }

    /** Stands for the flag of its actor in s. */
    ghost predicate Is(s: System)
      reads this`running
    {
      shell.actor in s.actors && running == s.actors[shell.actor].running
    }

    /** is_running is the runtime's. */
    lemma RunningIs(w: World, s: System)
      requires w.Is(s) && shell in w.shells && Is(s)
      ensures IsRunning() <==> ActorSteps.IsRunning(s.actors[shell.actor])
    {
      assert Worlds.Stands(w.Look().views[shell], w, s, shell.actor);
    }

    /** A handler's new handle of its own actor: unless stop was called, the loop cannot end while it exists. */
    method GetShell(ghost w: World, ghost s: System) returns (handle: Shell)
      requires w.Is(s) && Reachable(s) && shell in w.shells && Is(s)
      requires HandlerEnabled(s, shell.actor, HandlerEvent.GetShell)
      modifies shell
      ensures handle == shell && w.Is(ApplyHandler(s, shell.actor, HandlerEvent.GetShell))
      ensures Is(ApplyHandler(s, shell.actor, HandlerEvent.GetShell)) && IsRunning() == running
    {
      hide Worlds.AllStand, Worlds.CellsStand, Reachable, HandlerEnabled, ApplyHandler;
      ghost var before := w.Look();
      GetShellSeen(before, w, s, shell);
      shell.Clone(w);
      GetShellShows(before, w.Look(), w, s, shell);
      handle := shell;
    }

    /** From now on is_running is false, whatever handles there are; it is the runtime's stop. */
    method Stop()
      modifies this`running
      ensures !running && !IsRunning()
      ensures forall s: System :: old(Is(s)) && HandlerEnabled(s, shell.actor, StopCalled) ==>
                Is(ApplyHandler(s, shell.actor, StopCalled))
    {
      running := false;
    }
  }

  lemma GetShellSeen(k: Worlds.Sight, w: World, s: System, shell: Shell)
    requires Reachable(s) && Worlds.Shows(k, w, s) && shell in k.views
    requires HandlerEnabled(s, shell.actor, HandlerEvent.GetShell)
    ensures k.views[shell].strong >= 1
    ensures var t := ApplyHandler(s, shell.actor, HandlerEvent.GetShell);
            shell.actor in s.actors && shell.actor in t.actors
            && t.actors[shell.actor].running == s.actors[shell.actor].running
  {
    hide Reachable;
    assert Worlds.Stands(k.views[shell], w, s, shell.actor);
    RunningMeans(s, shell.actor);
  }

  lemma GetShellShows(before: Worlds.Sight, after: Worlds.Sight, w: World, s: System, shell: Shell)
    requires Worlds.Shows(before, w, s) && w.Separate() && before.views.Keys == after.views.Keys == w.shells
    requires shell in w.shells && HandlerEnabled(s, shell.actor, HandlerEvent.GetShell) && after.cells == before.cells
    requires forall sh <- w.shells ::
               after.views[sh] == before.views[sh].(strong := before.views[sh].strong + Bit(sh == shell))
    ensures Worlds.Shows(after, w, ApplyHandler(s, shell.actor, HandlerEvent.GetShell))
  {
    hide Worlds.Shows;
    Worlds.RecountShows(before, after, w, s, ApplyHandler(s, shell.actor, HandlerEvent.GetShell), shell, 1);
  }

  /** The parcels of the messages of a mailbox. */
  function Carried(parcels: MsgId -> Worlds.Parcel, ms: seq<MsgId>): seq<Worlds.Parcel> {
    seq(|ms|, i requires 0 <= i < |ms| => parcels(ms[i]))
  }

  lemma CarriedMore(parcels: MsgId -> Worlds.Parcel, ms: seq<MsgId>, ns: seq<MsgId>)
    ensures Carried(parcels, ms + ns) == Carried(parcels, ms) + Carried(parcels, ns)
  {}

  class EventLoop {
    const context: Context
    const parcels: MsgId -> Worlds.Parcel  // the parcel of each message there will be
    var deadline: nat
    var state: UserState
    ghost var external: nat
    ghost var lanes: map<RoleId, Lane>
    ghost var initial: UserState
    ghost var order: seq<(RoleId, MsgId)>
    ghost var log: seq<Done>
    ghost var fault: Option<Fault>

    /** The receivers are those of the shell's own channels, which hold the parcels of the messages queued. */
    ghost predicate Valid()
      reads this, context.shell.channels.Values
    {
      var channels := context.shell.channels;
      context.shell.Owns() && lanes.Keys == channels.Keys
      && forall r <- channels :: channels[r].queue == Carried(parcels, lanes[r].queue)
    }

    /** The record of the runtime model this object stands for. */
    ghost function Record(phase: Phase): Actor
      reads this, context, context.shell
    {
      Actor(context.shell.strong, external, context.running, phase, lanes, deadline, state, None,
            initial, order, log, fault)
    }

    /** `start`, with the shell that Worlds.Start makes, and the first poll, which sets the timer. */
    constructor (state: UserState, shell: Shell, now: nat, parcels: MsgId -> Worlds.Parcel)
      requires shell.strong == 2 && shell.Owns() && forall r <- shell.channels :: shell.channels[r].queue == []
      ensures Valid() && fresh(context) && context.shell == shell && this.parcels == parcels
      ensures Record(LoopTop) == FirstPoll(NewActor(shell.channels.Keys, state), now)
    {
      context := new Context(shell);
      this.parcels := parcels;
      deadline := now + IDLE_TIMEOUT;
      this.state := state;
      external, initial, order, log, fault := 1, state, [], [], None;
      lanes := map r | r in shell.channels.Keys :: Lane([], [], [], []);
    }

    /** Other tasks put parcels into the channels. */
    method Deliver(o: Others)
      requires context.shell.Owns()
      modifies context.shell.channels.Values
      ensures forall r <- context.shell.channels ::
                var c := context.shell.channels[r]; c.queue == old(c.queue) + Carried(parcels, Arriving(o, r))
    {
      var channels := context.shell.channels;
      forall r | r in channels { channels[r].queue := channels[r].queue + Carried(parcels, Arriving(o, r)); }
    }

    /** Other tasks send to this actor and change its count. */
    method Meanwhile(o: Others, ghost phase: Phase)
      requires Valid()
      modifies this`lanes, this`external, context.shell, context.shell.channels.Values
      ensures Valid() && Record(phase) == Absorb(old(Record(phase)), o)
    {
      hide Arriving, Carried;
      ghost var x := Record(phase);
      ghost var channels := context.shell.channels;
      Deliver(o);
      lanes := map r | r in lanes :: Grown(lanes[r], Arriving(o, r));
      external := o.external;
      context.shell.strong := o.strong;
      assert lanes == Absorb(x, o).lanes;
      forall r | r in channels ensures channels[r].queue == Carried(parcels, lanes[r].queue) {
        CarriedMore(parcels, x.lanes[r].queue, Arriving(o, r));
      }
    }

    /** A receive branch is taken: its message is out of the mailbox and the timer restarted. */
    method Begin(r: RoleId, now: nat, ghost phase: Phase) returns (ghost m: MsgId, p: Worlds.Parcel)
      requires Valid() && ReceiveEnabled(Record(phase), r)
      modifies this, context.shell.channels.Values
      ensures Valid() && Receive(old(Record(phase)), r, now).phase == Handling(m) && p == parcels(m)
      ensures Record(Handling(m)) == Receive(old(Record(phase)), r, now)
    {
      var c := context.shell.channels[r];
      m := lanes[r].queue[0];
      p := c.queue[0];
      c.queue := c.queue[1..];
      lanes := lanes[r := Pop(lanes[r])];
      order := order + [(r, m)];
      deadline := now + IDLE_TIMEOUT;
    }

    /** The body of a receive branch: restart the timer and await the dispatcher. */
    method Dispatch(r: RoleId, now: nat, e: Effect, ghost phase: Phase) returns (end: Phase)
      requires Valid() && ReceiveEnabled(Record(phase), r)
      modifies this, context`running, context.shell, context.shell.channels.Values
      ensures Valid() && end == RunHandler(Receive(old(Record(phase)), r, now), e).phase
      ensures Record(end) == RunHandler(Receive(old(Record(phase)), r, now), e)
    {
      hide Absorb, Receive, EndHandler;
      ghost var m;
      var p;  // what the handler is called with; e says how that call goes
      m, p := Begin(r, now, phase);
      Meanwhile(e.during, Handling(m));
      if e.stops { context.Stop(); }
      end := Finish(m, e);
    }

    /** The handler completes and its reply is sent, or it panics. */
    method Finish(ghost m: MsgId, e: Effect) returns (end: Phase)
      requires Valid()
      modifies this, context.shell, context.shell.channels.Values
      ensures Valid() && end == EndHandler(old(Record(Handling(m))), e).phase
      ensures Record(end) == EndHandler(old(Record(Handling(m))), e)
    {
      hide Absorb;
      ghost var x := Record(Handling(m));
      if e.result.Some? {
        log := log + [Done(m, state, e.st, e.result.value)];
        state := e.st;
        assert Record(Replying(m, e.result.value)) == Return(x, e.st, e.result.value);
        Meanwhile(e.after, Replying(m, e.result.value));
        end := LoopTop;
      } else {
        fault := Some(Fault(state, e.st));
        state := e.st;
        assert Record(Finalizing(Panicked)) == Crash(x, e.st);
        Meanwhile(e.after, Finalizing(Panicked));
        end := Finalizing(Panicked);
      }
    }

    /** The entry of select!: read the guards; with every branch disabled `else` breaks the loop. */
    method Enter() returns (end: Phase)
      requires Valid()
      ensures end == Guards(Record(LoopTop)).phase && Record(end) == Guards(Record(LoopTop))
    {
      var timer := context.IsRunning();
      var channels := context.shell.channels;
      var enabled := set r | r in channels && (channels[r].queue != [] || timer);
      assert enabled == EnabledRoles(Record(LoopTop));
      end := if enabled == {} && !timer then Finalizing(Drained) else Select(enabled, timer);
    }

    /** The timer branch: break if nobody holds a handle, else wait for another period. */
    method PollTimer(now: nat, ghost phase: Phase) returns (end: Phase)
      requires Valid() && TimerEnabled(Record(phase), now)
      modifies this`deadline
      ensures Valid() && end == ActorSteps.Timer(old(Record(phase)), now).phase
      ensures Record(end) == ActorSteps.Timer(old(Record(phase)), now)
    {
      if !context.IsRunning() {
        end := Finalizing(TimedOut);
      } else {
        deadline := now + IDLE_TIMEOUT;
        end := LoopTop;
      }
    }

    /** The generated `loop { select! { .. } }`. */
    method Run(ts: seq<Turn>) returns (end: Phase)
      requires Valid()
      modifies this, context`running, context.shell, context.shell.channels.Values
      ensures Valid() && Record(end) == RunLoop(old(Record(LoopTop)), ts)
    {
      hide Guards, RunHandler, Absorb, ActorSteps.Timer, Receive;
      end := LoopTop;
      var channels := context.shell.channels;
      ghost var x := Record(end);
      var i := 0;
      while i < |ts|
        invariant 0 <= i <= |ts| && Valid() && (end.LoopTop? || end.Select?)
        invariant RunLoop(Record(end), ts[i..]) == RunLoop(x, ts)
      {
        var t := ts[i];
        assert ts[i..][1..] == ts[i + 1..];
        PassShape(Record(end), t);
        if end.LoopTop? {
          end := Enter();
          if end.Finalizing? { return; }
        }
        Meanwhile(t.others, end);
        match t.pick {
          case TakeFrom(r) =>
            if r in end.enabled && r in channels && channels[r].queue != [] {
              end := Dispatch(r, t.now, t.effect, end);
              if end.Finalizing? { return; }
            }
          case TakeTimer =>
            if end.timer && t.now >= deadline {
              end := PollTimer(t.now, end);
              if end.Finalizing? { return; }
            }
        }
        i := i + 1;
      }
    }
  }
}
