/** Every reachable state of the runtime satisfies the invariant. */
module Reachability {
  import opened Types
  import opened ActorSteps
  import opened Runtime
  import opened Ownership
  import opened Invariants
  import opened MessageProofs
  import opened OwnershipProofs
  import opened LoopProofs
  import opened LaneProofs
  import opened HandlerProofs
  import opened ForwardProofs

  lemma StepKeepsInv(s: System, e: Event)
    requires Inv(s) && Enabled(s, e)
    ensures Inv(Apply(s, e))
  {
    hide Apply, Enabled, WellFormed, MsgsOk, Counted, LanesOk, LoopsOk, HistoriesOk, HandlersOk, ForwardsOk, FeedersOk;
    KeepsWellFormed(s, e);
    KeepsMsgs(s, e);
    KeepsCounts(s, e);
    KeepsLanes(s, e);
    KeepsLoops(s, e);
    KeepsHistories(s, e);
    KeepsHandlers(s, e);
    KeepsForwards(s, e);
    KeepsFeeders(s, e);
  }

  lemma {:induction false} RunKeepsInv(s: System, es: seq<Event>)
    requires Inv(s) && Valid(s, es)
    ensures Inv(Final(s, es))
    decreases |es|
  {
    hide Inv, Apply, Enabled;
    if es != [] {
      StepKeepsInv(s, es[0]);
      RunKeepsInv(Apply(s, es[0]), es[1..]);
    }
  }

  /** The state after any run from the beginning. */
  ghost predicate Reachable(s: System) {
    exists s0: System, es: seq<Event> :: Initial(s0) && Valid(s0, es) && s == Final(s0, es)
  }

  lemma ReachableInv(s: System)
    requires Reachable(s)
    ensures Inv(s)
  {
    var s0: System, es: seq<Event> :| Initial(s0) && Valid(s0, es) && s == Final(s0, es);
    RunKeepsInv(s0, es);
  }

  lemma {:induction false} RunConcat(s: System, es: seq<Event>, fs: seq<Event>)
    requires Valid(s, es) && Valid(Final(s, es), fs)
    ensures Valid(s, es + fs) && Final(s, es + fs) == Final(Final(s, es), fs)
    decreases |es|
  {
    hide Enabled, Apply;
    if es == [] {
      assert es + fs == fs;
    } else {
      RunConcat(Apply(s, es[0]), es[1..], fs);
      assert (es + fs)[1..] == es[1..] + fs;
    }
  }

  lemma RunNone(s: System)
    ensures Valid(s, []) && Final(s, []) == s
  {}

  lemma RunOne(s: System, e: Event)
    requires Enabled(s, e)
    ensures Valid(s, [e]) && Final(s, [e]) == Apply(s, e)
  {
    hide Enabled, Apply;
    assert Valid(Apply(s, e), []) && [e][1..] == [];
  }

  lemma RunAppend(s: System, es: seq<Event>, e: Event)
    requires Valid(s, es) && Enabled(Final(s, es), e)
    ensures Valid(s, es + [e]) && Final(s, es + [e]) == Apply(Final(s, es), e)
  {
    hide Enabled, Apply;
    RunOne(Final(s, es), e);
    RunConcat(s, es, [e]);
  }

  lemma StepReachable(s: System, e: Event)
    requires Reachable(s) && Enabled(s, e)
    ensures Reachable(Apply(s, e))
  {
    hide Initial, Valid, Final, Enabled, Apply;
    var s0: System, es: seq<Event> :| Initial(s0) && Valid(s0, es) && s == Final(s0, es);
    RunAppend(s0, es, e);
  }

  lemma {:induction false} RunReachable(s: System, es: seq<Event>)
    requires Reachable(s) && Valid(s, es)
    ensures Reachable(Final(s, es))
    decreases |es|
  {
    hide Reachable, Apply, Enabled;
    if es != [] {
      StepReachable(s, es[0]);
      RunReachable(Apply(s, es[0]), es[1..]);
    }
  }

  // ---- the parts of the invariant ----

  lemma PartsAt(s: System)
    requires Reachable(s)
    ensures MsgsOk(s) && LanesOk(s) && HandlersOk(s) && WellFormed(s)
  {
    ReachableInv(s);
    hide MsgsOk, LanesOk, HandlersOk, WellFormed, Counted, HistoriesOk, LoopsOk, ForwardsOk, FeedersOk;
  }

  lemma MsgAt(s: System, m: MsgId)
    requires Reachable(s) && m in s.msgs
    ensures Rooted(s, m) && MsgOk(s.msgs[m])
  {
    ReachableInv(s);
  }

  lemma ActorAt(s: System, a: ActorId)
    requires Reachable(s) && a in s.actors
    ensures LoopOk(s.actors[a], s.now) && HistoryOk(s.actors[a]) && CountExact(s, a)
    ensures s.actors[a].lanes.Keys != {}
  {
    ReachableInv(s);
  }

  lemma LoopAt(s: System, a: ActorId)
    requires Reachable(s) && a in s.actors
    ensures LoopOk(s.actors[a], s.now)
  {
    hide HistoryOk, CountExact;
    ActorAt(s, a);
  }

  lemma LaneAt(s: System, a: ActorId, r: RoleId)
    requires Reachable(s) && Exists(s, a, r)
    ensures LaneOk(s, a, r, s.actors[a].lanes[r])
  {
    ReachableInv(s);
    hide LaneOk;
  }

  lemma AcceptedAt(s: System, m: MsgId)
    requires Reachable(s) && m in s.msgs && s.msgs[m].stage.Accepted()
    ensures Exists(s, s.msgs[m].to, s.msgs[m].role)
    ensures m in s.actors[s.msgs[m].to].lanes[s.msgs[m].role].enqueued
  {
    ReachableInv(s);
    hide LaneOk;
  }
}
