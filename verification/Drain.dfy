/** After stop the loop drains its mailboxes and breaks. */
module Drain {
  import opened Types
  import opened ActorSteps
  import opened Runtime
  import opened Invariants
  import opened MessageProofs
  import opened StructureProofs
  import opened LoopProofs
  import opened ForwardProofs
  import opened Reachability
  import opened Delivery
  import opened Lifetime

  // ---- sums over the mailboxes of an actor ----

  ghost function Sum(keys: set<RoleId>, f: RoleId -> nat): nat {
    if keys == {} then 0 else var r :| r in keys; f(r) + Sum(keys - {r}, f)
  }

  lemma {:induction false} SumTake(keys: set<RoleId>, f: RoleId -> nat, r: RoleId)
    requires r in keys
    ensures Sum(keys, f) == f(r) + Sum(keys - {r}, f)
  {
    var q :| q in keys && Sum(keys, f) == f(q) + Sum(keys - {q}, f);
    if q != r {
      SumTake(keys - {q}, f, r);
      SumTake(keys - {r}, f, q);
      assert keys - {q} - {r} == keys - {r} - {q};
    }
  }

  lemma {:induction false} SumSame(keys: set<RoleId>, f: RoleId -> nat, g: RoleId -> nat)
    requires forall r <- keys :: f(r) == g(r)
    ensures Sum(keys, f) == Sum(keys, g)
  {
    if keys != {} {
      var r :| r in keys;
      SumTake(keys, f, r);
      SumTake(keys, g, r);
      SumSame(keys - {r}, f, g);
    }
  }

  /** One mailbox changes by d. */
  lemma SumChange(keys: set<RoleId>, f: RoleId -> nat, g: RoleId -> nat, r: RoleId)
    requires r in keys && forall q <- keys :: q != r ==> f(q) == g(q)
    ensures Sum(keys, g) == Sum(keys, f) - f(r) + g(r)
  {
    SumTake(keys, f, r);
    SumTake(keys, g, r);
    SumSame(keys - {r}, f, g);
  }

  function QueueLength(lanes: map<RoleId, Lane>): RoleId -> nat {
    r => if r in lanes then |lanes[r].queue| else 0
  }

  function ArrivalCount(lanes: map<RoleId, Lane>): RoleId -> nat {
    r => if r in lanes then |lanes[r].enqueued| else 0
  }

  /** How many messages wait in the actor's mailboxes. */
  ghost function Backlog(x: Actor): nat {
    Sum(x.lanes.Keys, QueueLength(x.lanes))
  }

  /** How many messages were ever accepted by the actor. */
  ghost function Arrived(x: Actor): nat {
    Sum(x.lanes.Keys, ArrivalCount(x.lanes))
  }

  lemma {:induction false} SumAdd(keys: set<RoleId>, f: RoleId -> nat, g: RoleId -> nat, h: RoleId -> nat)
    requires forall r <- keys :: h(r) == f(r) + g(r)
    ensures Sum(keys, h) == Sum(keys, f) + Sum(keys, g)
  {
    if keys != {} {
      var r :| r in keys;
      SumTake(keys, f, r);
      SumTake(keys, g, r);
      SumTake(keys, h, r);
      SumAdd(keys - {r}, f, g, h);
    }
  }

  function TakenCount(order: seq<(RoleId, MsgId)>): RoleId -> nat {
    r => |Project(order, r)|
  }

  lemma {:induction false} SumZero(keys: set<RoleId>, f: RoleId -> nat)
    requires forall r <- keys :: f(r) == 0
    ensures Sum(keys, f) == 0
  {
    if keys != {} {
      var r :| r in keys;
      SumTake(keys, f, r);
      SumZero(keys - {r}, f);
    }
  }

  /** Every message taken out was taken out of one mailbox. */
  lemma {:induction false} SumTaken(order: seq<(RoleId, MsgId)>, keys: set<RoleId>)
    requires forall p <- order :: p.0 in keys
    ensures Sum(keys, TakenCount(order)) == |order|
  {
    if order == [] {
      SumZero(keys, TakenCount(order));
    } else {
      var front, last := order[..|order| - 1], order[|order| - 1];
      assert last in order;
      SumTaken(front, keys);
      SumChange(keys, TakenCount(front), TakenCount(order), last.0);
    }
  }

  /** While the task has not ended, what arrived was taken out or is queued. */
  lemma Balance(s: System, a: ActorId)
    requires Reachable(s) && a in s.actors && Accepting(s.actors[a])
    ensures Arrived(s.actors[a]) == |s.actors[a].order| + Backlog(s.actors[a])
  {
    hide Reachable;
    var x := s.actors[a];
    var keys := x.lanes.Keys;
    ActorAt(s, a);
    SumTaken(x.order, keys);
    forall r | r in keys
      ensures ArrivalCount(x.lanes)(r) == TakenCount(x.order)(r) + QueueLength(x.lanes)(r)
    {
      Fifo(s, a, r);
    }
    SumAdd(keys, TakenCount(x.order), QueueLength(x.lanes), ArrivalCount(x.lanes));
  }

  // ---- after stop ----

  /** Context::stop was called and the loop has not been left. */
  predicate Stopping(s: System, a: ActorId) {
    a in s.actors && !s.actors[a].running && s.actors[a].phase.InLoop()
  }

  /** The loop's own steps: each takes it one further round a message. */
  predicate Progress(e: Event, a: ActorId) {
    (e.Loop? && e.a == a && (e.l.ReadGuards? || e.l.Received?))
    || (e.Handler? && e.a == a && (e.h.Returned? || e.h.Replied?))
  }

  function ProgressCount(es: seq<Event>, a: ActorId): nat {
    if es == [] then 0 else (if Progress(es[0], a) then 1 else 0) + ProgressCount(es[1..], a)
  }

  /** How many own steps are left for the messages now queued: four for each, and the rest of this round. */
  ghost function Budget(x: Actor): nat {
    4 * Backlog(x) + Rank(x.phase)
  }

  /** What one event makes of a stopping actor. */
  predicate StoppingShape(x: Actor, x': Actor, e: Event, a: ActorId) {
    && !x'.running && !(x.phase.Select? && x.phase.timer)
    && |x'.order| == |x.order| + (if e.Loop? && e.a == a && e.l.Received? then 1 else 0)
    && (Progress(e, a) ==> x'.phase.Finalizing? || Rank(x'.phase) == Rank(x.phase) - 1
                           || (e.Loop? && e.l.Received? && x'.phase.Handling?))
    && (e.Loop? && e.a == a && e.l.Received? ==> x.phase.Select? && x'.phase.Handling?)
    && (!Progress(e, a) ==> x'.phase == x.phase || x'.phase.Finalizing?)
    && (x'.phase.Finalizing? || x'.phase.InLoop())
    && (x'.phase.Finalizing? && !x'.phase.exit.Panicked? ==> e == Loop(a, ReadGuards) && x.phase.LoopTop?)
  }

  lemma StoppingOwn(s: System, e: Event, a: ActorId)
    requires Enabled(s, e) && Stopping(s, a) && LoopOk(s.actors[a], s.now)
    requires !(e.Loop? && e.a == a && e.l.ReceivedNone?)
    ensures StoppingShape(s.actors[a], Own(s, e, a), e, a)
  {}

  /** Nothing but taking a message out changes what was taken out; stop is irreversible; the timer stays off. */
  lemma StoppingStep(s: System, e: Event, a: ActorId)
    requires Reachable(s) && Enabled(s, e) && Stopping(s, a)
    ensures a in Apply(s, e).actors && StoppingShape(s.actors[a], Apply(s, e).actors[a], e, a)
  {
    hide Reachable, Apply, Own;
    LoopAt(s, a);
    if e.Loop? && e.a == a && e.l.ReceivedNone? { ReceiveNeverNone(s, a, e.l.r); }
    StoppingOwn(s, e, a);
    ActorShape(s, e, a);
  }

  function Rank(p: Phase): nat {
    match p
    case LoopTop => 1
    case Handling(_) => 3
    case Replying(_, _) => 2
    case _ => 0
  }

  /** Each own step uses up one of the budget; only arrivals add to it. */
  lemma BudgetStep(s: System, e: Event, a: ActorId)
    requires Reachable(s) && Enabled(s, e) && Stopping(s, a)
    requires a in Apply(s, e).actors && Stopping(Apply(s, e), a)
    ensures Budget(Apply(s, e).actors[a]) + (if Progress(e, a) then 1 else 0)
         == Budget(s.actors[a]) + 4 * (Arrived(Apply(s, e).actors[a]) - Arrived(s.actors[a]))
  {
    hide Reachable, Apply, Enabled, Backlog, Arrived;
    StoppingStep(s, e, a);
    StepReachable(s, e);
    Balance(s, a);
    Balance(Apply(s, e), a);
  }

  lemma {:induction false} NeverBack(s: System, es: seq<Event>, a: ActorId)
    requires Valid(s, es) && a in s.actors && (s.actors[a].phase.Finalizing? || s.actors[a].phase.Ended())
    ensures a in Final(s, es).actors && !Final(s, es).actors[a].phase.InLoop()
  {
    hide Apply, Enabled;
    ExitedForGood(s, es, a, s.actors[a].phase.exit);
  }

  /**
   * After stop the loop's own steps are bounded by the messages queued and those that still arrive:
   * while it is in the loop, the steps it took and those left add up to the budget it started with.
   */
  lemma {:induction false} DrainBound(s: System, es: seq<Event>, a: ActorId)
    requires Reachable(s) && Valid(s, es) && Stopping(s, a)
    requires a in Final(s, es).actors && Final(s, es).actors[a].phase.InLoop()
    ensures Stopping(Final(s, es), a)
    ensures ProgressCount(es, a) + Budget(Final(s, es).actors[a])
         == Budget(s.actors[a]) + 4 * (Arrived(Final(s, es).actors[a]) - Arrived(s.actors[a]))
    decreases |es|
  {
    hide Reachable, Apply, Enabled, Budget, Arrived, Progress;
    if es != [] {
      var t := Apply(s, es[0]);
      StoppingStep(s, es[0], a);
      StepReachable(s, es[0]);
      if t.actors[a].phase.Finalizing? || t.actors[a].phase.Ended() {
        NeverBack(t, es[1..], a);
      } else {
        BudgetStep(s, es[0], a);
        DrainBound(t, es[1..], a);
      }
    }
  }

  /** A stopping loop can always take its next own step, unless its handler is blocked on a reply. */
  lemma StoppingCanStep(s: System, a: ActorId, n: MsgId, st: UserState, v: Value)
    requires Reachable(s) && Stopping(s, a) && n !in s.msgs && s.actors[a].awaiting.None?
    ensures exists e: Event :: Enabled(s, e) && Progress(e, a)
  {
    hide Reachable;
    var x := s.actors[a];
    LoopAt(s, a);
    var e: Event;
    match x.phase {
      case LoopTop => e := Loop(a, ReadGuards);
      case Select(enabled, timer) =>
        var r :| r in enabled;
        FrontRooted(s, a, r);
        e := Loop(a, Received(r));
      case Handling(m) => e := Handler(a, Returned(st, v));
      case Replying(m, w) => CurrentRooted(s, a); e := Handler(a, Replied(n));
      case _ =>
    }
    assert Enabled(s, e) && Progress(e, a);
  }

  lemma CurrentRooted(s: System, a: ActorId)
    requires Reachable(s) && a in s.actors && s.actors[a].phase.Current().Some?
    ensures Rooted(s, s.actors[a].phase.msg)
  {
    ReachableInv(s);
  }

  /**
   * stop does not discard what is queued. With k messages queued when it is called and j more accepted before
   * the loop breaks, and no panic, exactly k + j further handlers begin, they and the one in which stop was called
   * complete, and the loop breaks through `else` with every mailbox emptied in order, arrivals included.
   */
  lemma StopDrains(s: System, es: seq<Event>, e: Event, a: ActorId)
    requires Reachable(s) && Valid(s, es) && Stopping(s, a)
    requires a in Final(s, es).actors && Final(s, es).actors[a].phase.InLoop()
    requires Enabled(Final(s, es), e) && a in Apply(Final(s, es), e).actors
    requires Apply(Final(s, es), e).actors[a].phase.Finalizing?
    requires !Apply(Final(s, es), e).actors[a].phase.exit.Panicked?
    ensures Apply(Final(s, es), e).actors[a].phase.exit.Drained?
    ensures var x, y := s.actors[a], Final(s, es).actors[a];
            && |y.order| == |x.order| + Backlog(x) + (Arrived(y) - Arrived(x))
            && |y.log| == |y.order|
            && |y.log| == |x.log| + (if x.phase.Handling? then 1 else 0) + Backlog(x) + (Arrived(y) - Arrived(x))
            && AllEmpty(y) && y.lanes.Keys == x.lanes.Keys
            && (forall r <- x.lanes :: x.lanes[r].enqueued <= y.lanes[r].enqueued
                                       && y.lanes[r].began == y.lanes[r].enqueued)
  {
    hide Reachable, Apply, Enabled, Valid, Final, Budget, Arrived, Backlog;
    var t := Final(s, es);
    RunReachable(s, es);
    DrainBound(s, es, a);
    StoppingStep(t, e, a);
    ExitStep(t, e, Apply(t, e), a);
    Balance(s, a);
    Balance(t, a);
    NoneQueued(t.actors[a]);
    ActorAt(t, a);
    ActorAt(s, a);
    forall r | r in s.actors[a].lanes
      ensures r in t.actors[a].lanes && s.actors[a].lanes[r].enqueued <= t.actors[a].lanes[r].enqueued
      ensures t.actors[a].lanes[r].began == t.actors[a].lanes[r].enqueued
    {
      RunEnqueuedGrows(s, es, a, r);
      Fifo(t, a, r);
    }
    RunSameLanes(s, es, a);
  }

  lemma NoneQueued(x: Actor)
    requires AllEmpty(x)
    ensures Backlog(x) == 0
  {
    SumZero(x.lanes.Keys, QueueLength(x.lanes));
  }

  lemma {:induction false} RunSameLanes(s: System, es: seq<Event>, a: ActorId)
    requires Valid(s, es) && a in s.actors
    ensures a in Final(s, es).actors && Final(s, es).actors[a].lanes.Keys == s.actors[a].lanes.Keys
    decreases |es|
  {
    hide Apply, Enabled;
    if es != [] {
      SameLanes(s, es[0], a);
      RunSameLanes(Apply(s, es[0]), es[1..], a);
    }
  }

  lemma SameLanes(s: System, e: Event, a: ActorId)
    requires Enabled(s, e) && a in s.actors
    ensures a in Apply(s, e).actors && Apply(s, e).actors[a].lanes.Keys == s.actors[a].lanes.Keys
  {
    hide Apply;
    ActorShape(s, e, a);
  }
}
