/** What holds in every reachable state of the runtime. */
module Invariants {
  import opened Types
  import opened ActorSteps
  import opened Runtime
  import opened Ownership

  // ---- everything named exists ----

  ghost predicate WellFormed(s: System) {
    && (forall m <- s.msgs :: Rooted(s, m))
    && (forall f <- s.feeders :: Exists(s, s.feeders[f].to, s.feeders[f].role))
    && (forall a <- s.actors :: s.actors[a].lanes.Keys != {})
  }

  // ---- one message ----

  /** How the return path, caster, reply cell and place of one message agree. */
  predicate MsgOk(g: Msg) {
    && (g.path.Immediate? <==> !g.caster.NoCaster?)
    && (g.path.Immediate? <==> !g.cell.NoCell?)
    && (g.stage.Casting? <==> g.caster.Unsent?)
    && (g.stage.Held? || g.stage.Spawned? ==> !g.path.Immediate?)
    && (g.stage.Spawned? ==> g.path.Discard?)
    && (g.stage.Abandoned? ==> !g.path.Mailbox? && (g.path.Immediate? ==> g.caster.Dropped?))
    && (g.caster.Waiting? ==> g.stage.Accepted())
    && (g.caster.Dropped? ==> g.stage.Accepted() || g.stage.Abandoned?)
    && (g.caster.Resolved? ==>
          match g.caster.reply
          case Ok(v) => g.stage == Handled(v)
          case SendingError => g.stage.Refused?
          case Hangup => g.stage.Crashed? || g.stage.Discarded?)
    && (g.path.Immediate? && g.stage.Refused? ==> g.caster == Resolved(SendingError))
    && (g.path.Immediate? && g.stage.Handled? ==> g.cell == Filled(g.stage.value))
    && (g.path.Immediate? && (g.stage.Crashed? || g.stage.Discarded?) ==> g.cell.Broken?)
    && (g.cell.Filled? ==> g.stage == Handled(g.cell.value))
    && (g.cell.Broken? ==> g.stage.Crashed? || g.stage.Discarded?)
    && (g.child.Some? <==> g.path.Mailbox? && g.stage.Handled?)
  }

  ghost predicate MsgsOk(s: System) {
    forall m <- s.msgs :: MsgOk(s.msgs[m])
  }

  // ---- mailboxes ----

  ghost predicate Distinct<T(!new)>(q: seq<T>) {
    forall i, j :: 0 <= i < j < |q| ==> q[i] != q[j]
  }

  /** The messages of a mailbox's history are its own, each in the place its position says. */
  ghost predicate LaneOk(s: System, a: ActorId, r: RoleId, l: Lane) {
    && l.enqueued == l.began + l.dropped + l.queue
    && Distinct(l.enqueued)
    && (forall m <- l.enqueued :: m in s.msgs && s.msgs[m].to == a && s.msgs[m].role == r)
    && (forall m <- l.began ::
          s.msgs[m].stage.InHandler? || s.msgs[m].stage.Handled? || s.msgs[m].stage.Crashed?)
    && (forall m <- l.dropped :: s.msgs[m].stage.Discarded?)
    && (forall m <- l.queue :: s.msgs[m].stage.Queued?)
  }

  ghost predicate LanesOk(s: System) {
    && (forall a, r | a in s.actors && r in s.actors[a].lanes :: LaneOk(s, a, r, s.actors[a].lanes[r]))
    && (forall m <- s.msgs | s.msgs[m].stage.Accepted() ::
          Exists(s, s.msgs[m].to, s.msgs[m].role) && m in s.actors[s.msgs[m].to].lanes[s.msgs[m].role].enqueued)
  }

  // ---- the loop of one actor ----

  ghost predicate LoopOk(x: Actor, now: nat) {
    && (x.phase.InLoop() ==> x.deadline <= now + IDLE_TIMEOUT)
    && (x.phase.Select? ==> x.phase.enabled <= x.lanes.Keys)
    && (x.phase.Select? && x.phase.timer ==> x.running && x.phase.enabled == x.lanes.Keys)
    && (x.phase.Select? && !x.phase.timer ==>
          x.phase.enabled != {} && forall r <- x.phase.enabled :: x.lanes[r].queue != [])
    && (!x.phase.Ended() ==> forall r <- x.lanes :: x.lanes[r].dropped == [])
    && (x.phase.Dead? ==> AllEmpty(x))
    && (x.awaiting.Some? ==> x.phase.Handling?)
  }

  ghost predicate LoopsOk(s: System) {
    forall a <- s.actors :: LoopOk(s.actors[a], s.now)
  }

  // ---- what an actor has handled ----

  /** The messages of mailbox r among those taken out so far. */
  function Project(order: seq<(RoleId, MsgId)>, r: RoleId): seq<MsgId> {
    if order == [] then []
    else
      var rest := Project(order[..|order| - 1], r);
      var last := order[|order| - 1];
      if last.0 == r then rest + [last.1] else rest
  }

  /** The handler that has begun and not completed, or that panicked. */
  predicate Unfinished(x: Actor) {
    x.phase.Handling? || (x.phase.Finalizing? && x.phase.exit.Panicked?)
    || (x.phase.Ended() && x.phase.exit.Panicked?)
  }

  /** What the last completed handler left. */
  function LastState(x: Actor): UserState {
    if x.log == [] then x.initial else x.log[|x.log| - 1].after
  }

  /** The log is a one-at-a-time run from the initial state, over the order in which messages were taken. */
  ghost predicate HistoryOk(x: Actor) {
    && (forall r <- x.lanes :: Project(x.order, r) == x.lanes[r].began)
    && (forall p <- x.order :: p.0 in x.lanes)
    && |x.order| == |x.log| + (if Unfinished(x) then 1 else 0)
    && (forall i :: 0 <= i < |x.log| ==> x.log[i].msg == x.order[i].1)
    && (forall i :: 0 < i < |x.log| ==> x.log[i].before == x.log[i - 1].after)
    && (x.log != [] ==> x.log[0].before == x.initial)
    && (x.fault.Some? <==> Unfinished(x) && !x.phase.Handling?)
    && (x.fault.None? ==> x.state == LastState(x))
    && (x.fault.Some? ==> x.fault.value == Fault(LastState(x), x.state))
    && (x.phase.Handling? ==> x.order[|x.order| - 1].1 == x.phase.msg)
    && (x.phase.Replying? ==> x.log != [] && x.log[|x.log| - 1].msg == x.phase.msg
                              && x.log[|x.log| - 1].value == x.phase.value)
  }

  ghost predicate HistoriesOk(s: System) {
    forall a <- s.actors :: HistoryOk(s.actors[a])
  }

  // ---- the message in a handler, and the results of handlers ----

  predicate InLog(log: seq<Done>, m: MsgId, v: Value) {
    exists i :: 0 <= i < |log| && log[i].msg == m && log[i].value == v
  }

  predicate LastTaken(x: Actor, m: MsgId) {
    x.order != [] && x.order[|x.order| - 1].1 == m
  }

  ghost predicate HandlersOk(s: System) {
    && (forall a <- s.actors :: s.actors[a].phase.Current().Some? ==>
          var m := s.actors[a].phase.Current().value;
          m in s.msgs && s.msgs[m].to == a && s.msgs[m].stage.InHandler?)
    && (forall m <- s.msgs | s.msgs[m].stage.InHandler? ::
          s.msgs[m].to in s.actors && s.actors[s.msgs[m].to].phase.Current() == Some(m))
    && (forall m <- s.msgs | s.msgs[m].stage.Handled? ::
          s.msgs[m].to in s.actors && InLog(s.actors[s.msgs[m].to].log, m, s.msgs[m].stage.value))
    && (forall m <- s.msgs | s.msgs[m].stage.Crashed? ::
          s.msgs[m].to in s.actors && Unfinished(s.actors[s.msgs[m].to])
          && !s.actors[s.msgs[m].to].phase.Handling? && LastTaken(s.actors[s.msgs[m].to], m))
  }

  // ---- forwarded results ----

  /** n is the message that carries on the result of the forwarded message m. */
  predicate Carries(s: System, m: MsgId, n: MsgId) {
    && m in s.msgs && n in s.msgs && m != n
    && s.msgs[m].path.Mailbox? && s.msgs[m].stage.Handled?
    && s.msgs[n].to == s.msgs[m].path.to && s.msgs[n].role == s.msgs[m].path.role
    && s.msgs[n].payload == Converted(s.msgs[m].stage.value)
    && s.msgs[n].path.Discard?
    && (s.msgs[n].stage.Accepted() || s.msgs[n].stage.Refused?)
    && s.msgs[n].origin == Some(m) && s.msgs[m].child == Some(n)
  }

  ghost predicate ForwardsOk(s: System) {
    && (forall m <- s.msgs | s.msgs[m].child.Some? :: Carries(s, m, s.msgs[m].child.value))
    && (forall n <- s.msgs | s.msgs[n].origin.Some? :: Carries(s, s.msgs[n].origin.value, n))
  }

  // ---- feeders ----

  /** What was accepted is an in-order, duplicate-free prefix of what was pulled from the stream. */
  ghost predicate FeederOk(s: System, d: Feeder) {
    && |d.sent| == |d.positions| && |d.pulled| == |d.sent| + (if d.broke then 1 else 0)
    && (d.broke ==> !d.live)
    && (forall i :: 0 <= i < |d.sent| ==> d.sent[i] in s.msgs && s.msgs[d.sent[i]].payload == d.pulled[i])
    && Exists(s, d.to, d.role)
    && var q := s.actors[d.to].lanes[d.role].enqueued;
    && (forall i :: 0 <= i < |d.sent| ==> d.positions[i] < |q| && q[d.positions[i]] == d.sent[i])
    && (forall i, j :: 0 <= i < j < |d.sent| ==> d.positions[i] < d.positions[j])
  }

  ghost predicate FeedersOk(s: System) {
    forall f <- s.feeders :: FeederOk(s, s.feeders[f])
  }

  ghost predicate Inv(s: System) {
    WellFormed(s) && MsgsOk(s) && Counted(s) && LanesOk(s) && LoopsOk(s) && HistoriesOk(s) && HandlersOk(s)
    && ForwardsOk(s) && FeedersOk(s)
  }
}
