/** Where messages are and in what order they are handled, over every run. */
module Delivery {
  import opened Types
  import opened ActorSteps
  import opened Runtime
  import opened Ownership
  import opened Invariants
  import opened MessageProofs
  import opened MessageShapes
  import opened ForwardProofs
  import opened Reachability

  // ---- every message is in exactly one place ----

  predicate IsTaken(stage: Stage) {
    stage.InHandler? || stage.Handled? || stage.Crashed?
  }

  /** How often m occurs in a sequence. */
  function Times(q: seq<MsgId>, m: MsgId): nat {
    multiset(q)[m]
  }

  lemma {:induction false} DistinctOnce(q: seq<MsgId>, m: MsgId)
    requires Distinct(q)
    ensures Times(q, m) == Bit(m in q)
  {
    if q != [] {
      assert q == q[..|q| - 1] + [q[|q| - 1]];
      assert Distinct(q[..|q| - 1]);
      DistinctOnce(q[..|q| - 1], m);
    }
  }

  lemma LaneTimes(l: Lane, m: MsgId)
    requires l.enqueued == l.began + l.dropped + l.queue && Distinct(l.enqueued)
    ensures Times(l.enqueued, m) == Bit(m in l.enqueued) == Times(l.began, m) + Times(l.dropped, m) + Times(l.queue, m)
    ensures Times(l.began, m) == Bit(m in l.began) && Times(l.dropped, m) == Bit(m in l.dropped)
    ensures Times(l.queue, m) == Bit(m in l.queue)
  {
    DistinctOnce(l.enqueued, m);
    assert multiset(l.enqueued) == multiset(l.began) + multiset(l.dropped) + multiset(l.queue);
  }

  /** The occurrences of m in one mailbox and its history are those its stage says. */
  lemma OnePlace(s: System, m: MsgId, a: ActorId, r: RoleId)
    requires Reachable(s) && m in s.msgs && Exists(s, a, r)
    ensures var g := s.msgs[m]; var l := s.actors[a].lanes[r]; var here := g.to == a && g.role == r;
            && Times(l.enqueued, m) == Bit(here && g.stage.Accepted())
            && Times(l.queue, m) == Bit(here && g.stage.Queued?)
            && Times(l.began, m) == Bit(here && IsTaken(g.stage))
            && Times(l.dropped, m) == Bit(here && g.stage.Discarded?)
  {
    hide Reachable, Times, Distinct;
    var l := s.actors[a].lanes[r];
    LaneAt(s, a, r);
    LaneTimes(l, m);
    if s.msgs[m].stage.Accepted() { AcceptedAt(s, m); }
  }

  /** A message is in a handler exactly when it is the current one of its own actor, and of no other. */
  lemma OneHandler(s: System, m: MsgId, a: ActorId)
    requires Reachable(s) && m in s.msgs && a in s.actors
    ensures s.actors[a].phase.Current() == Some(m) <==> s.msgs[m].stage.InHandler? && s.msgs[m].to == a
  {
    ReachableInv(s);
  }

  // ---- messages only move forward ----

  /** The places a message can get to. */
  predicate Reaches(p: Stage, q: Stage) {
    match p
    case Held => q != Spawned(false)
    case Casting => !q.Held? && !q.Spawned?
    case Spawned(ready) => q == p || (!q.Held? && !q.Casting? && !q.Spawned? && (q.Abandoned? ==> !ready))
    case Queued => q.Accepted()
    case InHandler => IsTaken(q)
    case _ => q == p
  }

  lemma StepForward(s: System, e: Event, m: MsgId)
    requires Reachable(s) && Enabled(s, e) && m in s.msgs
    ensures m in Apply(s, e).msgs && Reaches(s.msgs[m].stage, Apply(s, e).msgs[m].stage)
    ensures SameMessage(s.msgs[m], Apply(s, e).msgs[m])
            || (s.msgs[m].stage.Held? && Apply(s, e).msgs[m].to == s.msgs[m].to
                && Apply(s, e).msgs[m].role == s.msgs[m].role && Apply(s, e).msgs[m].payload == s.msgs[m].payload)
  {
    hide Reachable, LanesOk, HandlersOk, Apply, MsgsOk, WellFormed;
    PartsAt(s);
    MsgShape(s, e, m);
    if e.Loop? { LoopTakesQueued(s, e.a, e.l); }
    if e.Handler? { HandlerActsOnCurrent(s, e.a, e.h); }
  }

  /** What is refused, handled, crashed, discarded or abandoned is so for good; what is accepted stays accepted. */
  lemma {:induction false} RunForward(s: System, es: seq<Event>, m: MsgId)
    requires Reachable(s) && Valid(s, es) && m in s.msgs
    ensures m in Final(s, es).msgs && Reaches(s.msgs[m].stage, Final(s, es).msgs[m].stage)
    ensures Final(s, es).msgs[m].to == s.msgs[m].to && Final(s, es).msgs[m].role == s.msgs[m].role
    ensures Final(s, es).msgs[m].payload == s.msgs[m].payload
    ensures !s.msgs[m].stage.Held? ==> Final(s, es).msgs[m].path == s.msgs[m].path
    decreases |es|
  {
    hide Reachable, Apply, Enabled;
    if es != [] {
      StepForward(s, es[0], m);
      StepReachable(s, es[0]);
      RunForward(Apply(s, es[0]), es[1..], m);
    }
  }

  // ---- order within a role ----

  lemma {:induction false} RunEnqueuedGrows(s: System, es: seq<Event>, a: ActorId, r: RoleId)
    requires Valid(s, es) && Exists(s, a, r)
    ensures Exists(Final(s, es), a, r)
    ensures s.actors[a].lanes[r].enqueued <= Final(s, es).actors[a].lanes[r].enqueued
    decreases |es|
  {
    hide Apply, Enabled;
    if es != [] {
      EnqueuedGrows(s, es[0], a, r);
      RunEnqueuedGrows(Apply(s, es[0]), es[1..], a, r);
    }
  }

  /** While the task has not ended, a mailbox's arrivals are what was taken out followed by what is queued. */
  lemma Fifo(s: System, a: ActorId, r: RoleId)
    requires Reachable(s) && Exists(s, a, r)
    ensures var l := s.actors[a].lanes[r];
            && l.enqueued == l.began + l.dropped + l.queue && Distinct(l.enqueued)
            && (Accepting(s.actors[a]) ==> l.enqueued == l.began + l.queue)
            && Project(s.actors[a].order, r) == l.began
  {
    hide Reachable, Distinct;
    LaneAt(s, a, r);
    ActorAt(s, a);
    var l := s.actors[a].lanes[r];
    if Accepting(s.actors[a]) { assert l.began + l.dropped + l.queue == l.began + l.queue; }
  }

  /**
   * Everything a dead actor ever accepted has been settled: handled, lost with the handler that panicked, or dropped
   * from the queue. Each mailbox's arrivals are what was taken out followed by what was dropped.
   */
  lemma DeadSettles(s: System, a: ActorId, r: RoleId)
    requires Reachable(s) && Exists(s, a, r) && s.actors[a].phase.Dead?
    ensures var l := s.actors[a].lanes[r];
            && l.queue == [] && l.enqueued == l.began + l.dropped
            && (forall m <- l.began :: m in s.msgs && (s.msgs[m].stage.Handled? || s.msgs[m].stage.Crashed?))
            && (forall m <- l.dropped :: m in s.msgs && s.msgs[m].stage.Discarded?)
    ensures forall m <- s.msgs :: s.msgs[m].to == a && s.msgs[m].role == r && s.msgs[m].stage.Accepted() ==>
              m in s.actors[a].lanes[r].enqueued
              && (s.msgs[m].stage.Handled? || s.msgs[m].stage.Crashed? || s.msgs[m].stage.Discarded?)
  {
    hide Reachable, Distinct;
    var l := s.actors[a].lanes[r];
    LoopAt(s, a);
    LaneAt(s, a, r);
    assert l.began + l.dropped + l.queue == l.began + l.dropped;
    forall m | m in l.began ensures !s.msgs[m].stage.InHandler? {
      assert m in l.enqueued;
      OneHandler(s, m, a);
    }
    forall m | m in s.msgs && s.msgs[m].to == a && s.msgs[m].role == r && s.msgs[m].stage.Accepted()
      ensures m in l.enqueued
    {
      AcceptedAt(s, m);
    }
  }

  /** m occurs before n. */
  predicate Before(q: seq<MsgId>, m: MsgId, n: MsgId) {
    exists i, j :: 0 <= i < j < |q| && q[i] == m && q[j] == n
  }

  /**
   * A call whose delivery has completed happens before every call on the same role made afterwards:
   * the later message is taken out only after the earlier one.
   */
  lemma HappensBefore(s: System, es: seq<Event>, m1: MsgId, m2: MsgId)
    requires Reachable(s) && Valid(s, es)
    requires m1 in s.msgs && s.msgs[m1].stage.Accepted()
    requires m2 in s.msgs ==> !s.msgs[m2].stage.Accepted()
    requires var t := Final(s, es);
             m2 in t.msgs && IsTaken(t.msgs[m2].stage)
             && t.msgs[m2].to == s.msgs[m1].to && t.msgs[m2].role == s.msgs[m1].role
    ensures var a, r := s.msgs[m1].to, s.msgs[m1].role;
            Exists(Final(s, es), a, r)
            && Before(Final(s, es).actors[a].lanes[r].began, m1, m2)
  {
    hide Reachable, Valid, Final;
    var a, r := s.msgs[m1].to, s.msgs[m1].role;
    var t := Final(s, es);
    AcceptedAt(s, m1);
    RunEnqueuedGrows(s, es, a, r);
    RunReachable(s, es);
    LaneAt(s, a, r);
    LaneAt(t, a, r);
    OnePlace(t, m2, a, r);
    OnePlace(t, m1, a, r);
    InOrder(s.actors[a].lanes[r].enqueued, t.actors[a].lanes[r], m1, m2);
  }

  lemma InOrder(before: seq<MsgId>, l: Lane, m1: MsgId, m2: MsgId)
    requires before <= l.enqueued == l.began + l.dropped + l.queue
    requires m1 in before && m2 !in before && m2 in l.began
    ensures Before(l.began, m1, m2)
  {
    var i :| 0 <= i < |before| && before[i] == m1;
    var j :| 0 <= j < |l.began| && l.began[j] == m2;
    assert l.enqueued[j] == m2 && l.enqueued[i] == m1;
    assert forall k :: 0 <= k < |before| ==> l.enqueued[k] == before[k];
    assert l.began[i] == m1;
  }
}
