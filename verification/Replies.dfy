/** What a caller that awaits its Envelope learns, and that it is the truth in every run. */
module Replies {
  import opened Types
  import opened ActorSteps
  import opened Runtime
  import opened Ownership
  import opened Invariants
  import opened MessageShapes
  import opened Reachability
  import opened Delivery

  /** m's handler completed with v: the log of its actor says so, and m was taken out of its mailbox. */
  ghost predicate HandlerReturned(s: System, m: MsgId, v: Value)
    requires m in s.msgs
  {
    s.msgs[m].to in s.actors && InLog(s.actors[s.msgs[m].to].log, m, v)
  }

  lemma HandledIsLogged(s: System, m: MsgId)
    requires Reachable(s) && m in s.msgs && s.msgs[m].stage.Handled?
    ensures HandlerReturned(s, m, s.msgs[m].stage.value)
  {
    ReachableInv(s);
  }

  /** No message is taken out of a mailbox twice, nor out of two. */
  lemma TakenOnce(s: System, a: ActorId, i: nat, j: nat)
    requires Reachable(s) && a in s.actors && i < |s.actors[a].order| && j < |s.actors[a].order|
    requires s.actors[a].order[i].1 == s.actors[a].order[j].1
    ensures i == j
  {
    hide Reachable, Distinct;
    var x := s.actors[a];
    TakenFrom(s, a, i);
    TakenFrom(s, a, j);
    LaneAt(s, a, x.order[i].0);
    if i != j { TakenTwice(x, i, j); }
  }

  /** What was taken out was taken out of its own mailbox. */
  lemma TakenFrom(s: System, a: ActorId, i: nat)
    requires Reachable(s) && a in s.actors && i < |s.actors[a].order|
    ensures var (r, m) := s.actors[a].order[i];
            && Exists(s, a, r) && Project(s.actors[a].order, r) == s.actors[a].lanes[r].began
            && m in s.msgs && s.msgs[m].to == a && s.msgs[m].role == r && IsTaken(s.msgs[m].stage)
  {
    hide Reachable;
    var x := s.actors[a];
    ActorAt(s, a);
    assert x.order[i] in x.order;
    ProjectHas(x.order, i);
    LaneOfTaken(s, a, x.order[i].0, x.order[i].1);
  }

  /** No message is handled to completion twice. */
  lemma LoggedOnce(s: System, a: ActorId, i: nat, j: nat)
    requires Reachable(s) && a in s.actors && i < |s.actors[a].log| && j < |s.actors[a].log|
    requires s.actors[a].log[i].msg == s.actors[a].log[j].msg
    ensures i == j
  {
    hide Reachable;
    ActorAt(s, a);
    TakenOnce(s, a, i, j);
  }

  lemma LaneOfTaken(s: System, a: ActorId, r: RoleId, m: MsgId)
    requires Reachable(s) && Exists(s, a, r) && m in s.actors[a].lanes[r].began
    ensures m in s.msgs && s.msgs[m].to == a && s.msgs[m].role == r && IsTaken(s.msgs[m].stage)
  {
    hide Reachable;
    LaneAt(s, a, r);
    var l := s.actors[a].lanes[r];
    assert m in l.enqueued;
  }

  lemma {:induction false} ProjectHas(order: seq<(RoleId, MsgId)>, i: nat)
    requires i < |order|
    ensures order[i].1 in Project(order, order[i].0)
  {
    if i < |order| - 1 { ProjectHas(order[..|order| - 1], i); }
  }

  /** Two places in the order that hold the same message of the same role give it twice in its mailbox. */
  lemma {:induction false} ProjectTwice(order: seq<(RoleId, MsgId)>, i: nat, j: nat)
    requires i < j < |order| && order[i] == order[j]
    ensures !Distinct(Project(order, order[i].0))
  {
    var r := order[i].0;
    var front := order[..|order| - 1];
    if j < |order| - 1 {
      ProjectTwice(front, i, j);
      var k, n :| 0 <= k < n < |Project(front, r)| && Project(front, r)[k] == Project(front, r)[n];
      assert Project(order, r)[k] == Project(order, r)[n];
    } else {
      ProjectHas(front, i);
      var k :| 0 <= k < |Project(front, r)| && Project(front, r)[k] == order[i].1;
      assert Project(order, r)[k] == Project(order, r)[|Project(order, r)| - 1];
    }
  }

  lemma TakenTwice(x: Actor, i: nat, j: nat)
    requires i < |x.order| && j < |x.order| && i != j && x.order[i] == x.order[j]
    requires x.order[i].0 in x.lanes && Project(x.order, x.order[i].0) == x.lanes[x.order[i].0].began
    requires var l := x.lanes[x.order[i].0]; l.enqueued == l.began + l.dropped + l.queue
    ensures !Distinct(x.lanes[x.order[i].0].enqueued)
  {
    ProjectTwice(x.order, if i < j then i else j, if i < j then j else i);
    var l := x.lanes[x.order[i].0];
    var k, n :| 0 <= k < n < |l.began| && l.began[k] == l.began[n];
    assert l.enqueued[k] == l.enqueued[n];
  }

  /** A resolved caster: its answer and what happened to the message say the same, both ways. */
  lemma ReplyIsTruth(s: System, m: MsgId)
    requires Reachable(s) && m in s.msgs && s.msgs[m].caster.Resolved?
    ensures var g := s.msgs[m];
            && (forall v :: g.caster.reply == Ok(v) <==> g.stage == Handled(v))
            && (g.caster.reply.Ok? ==> HandlerReturned(s, m, g.caster.reply.value))
            && (g.caster.reply.SendingError? <==> g.stage.Refused?)
            && (g.caster.reply.Hangup? <==> g.stage.Crashed? || g.stage.Discarded?)
            && (!g.caster.reply.Ok? ==> forall v :: !HandlerReturned(s, m, v))
  {
    hide Reachable;
    var g := s.msgs[m];
    MsgAt(s, m);
    if g.stage.Handled? {
      HandledIsLogged(s, m);
    } else {
      forall v ensures !HandlerReturned(s, m, v) { NotLogged(s, m, v); }
    }
  }

  /** A crashed message is the last one its actor took out. */
  lemma CrashedIsLast(s: System, m: MsgId)
    requires Reachable(s) && m in s.msgs && s.msgs[m].stage.Crashed? && s.msgs[m].to in s.actors
    ensures Unfinished(s.actors[s.msgs[m].to]) && LastTaken(s.actors[s.msgs[m].to], m)
  {
    ReachableInv(s);
  }

  /** A message that was refused, dropped from the queue, or whose handler panicked has no result. */
  lemma NotLogged(s: System, m: MsgId, v: Value)
    requires Reachable(s) && m in s.msgs
    requires s.msgs[m].stage.Refused? || s.msgs[m].stage.Discarded? || s.msgs[m].stage.Crashed?
    ensures !HandlerReturned(s, m, v)
  {
    hide Reachable;
    if HandlerReturned(s, m, v) {
      var a := s.msgs[m].to;
      var x := s.actors[a];
      if s.msgs[m].stage.Crashed? { CrashedIsLast(s, m); }
      ActorAt(s, a);
      var i: nat :| i < |x.log| && x.log[i].msg == m && x.log[i].value == v;
      TakenFrom(s, a, i);
      if s.msgs[m].stage.Crashed? { TakenOnce(s, a, i, |x.order| - 1); }
    }
  }

  // ---- polling ----

  /** What one poll of a ReturnCaster yields: None is Poll::Pending. */
  function Polled(g: Msg): Option<Reply> {
    if g.caster.Resolved? then Some(g.caster.reply) else None
  }

  function AfterPoll(s: System, m: MsgId): Msg
    requires EnvelopeEnabled(s, PollCaster(m))
  {
    ApplyEnvelope(s, PollCaster(m)).msgs[m]
  }

  /** The first poll sends. A later one yields the reply when there is one, and Hangup when there can be none. */
  lemma PollOutcome(s: System, m: MsgId)
    requires Reachable(s) && EnvelopeEnabled(s, PollCaster(m))
    ensures var g := s.msgs[m]; var g' := AfterPoll(s, m);
            if g.caster.Unsent? then
              if Accepting(s.actors[g.to]) then g'.stage.Queued? && Polled(g') == None
              else g'.stage.Refused? && Polled(g') == Some(SendingError)
            else
              g'.stage == g.stage &&
              Polled(g') == match g.stage
                            case Handled(v) => Some(Ok(v))
                            case Crashed => Some(Hangup)
                            case Discarded => Some(Hangup)
                            case _ => None
  {
    hide Reachable;
    MsgAt(s, m);
  }

  /** Once the actor is dead every poll of a caster for it yields an answer. */
  lemma DeadActorAnswers(s: System, m: MsgId)
    requires Reachable(s) && EnvelopeEnabled(s, PollCaster(m)) && s.actors[s.msgs[m].to].phase.Dead?
    ensures Polled(AfterPoll(s, m)).Some?
  {
    hide Reachable, ApplyEnvelope;
    PollOutcome(s, m);
    var g := s.msgs[m];
    if g.stage.InHandler? { OneHandler(s, m, g.to); }
    if g.stage.Queued? {
      ActorAt(s, g.to);
      OnePlace(s, m, g.to, g.role);
    }
    MsgAt(s, m);
  }

  /** An answer is never contradicted: what a resolved caster said stays true of the message for ever. */
  lemma AnswerIsFinal(s: System, es: seq<Event>, m: MsgId)
    requires Reachable(s) && Valid(s, es) && m in s.msgs && s.msgs[m].caster.Resolved?
    ensures m in Final(s, es).msgs && Final(s, es).msgs[m].stage == s.msgs[m].stage
    ensures !s.msgs[m].caster.reply.Ok? ==> forall v :: !HandlerReturned(Final(s, es), m, v)
  {
    hide Reachable, Valid, Final;
    MsgAt(s, m);
    RunForward(s, es, m);
    RunReachable(s, es);
    if !s.msgs[m].caster.reply.Ok? {
      forall v ensures !HandlerReturned(Final(s, es), m, v) { NotLogged(Final(s, es), m, v); }
    }
  }

  // ---- the actor's own outcome ----

  datatype Outcome = ExitOutcome | PanicOutcome

  /** ExitHandle::poll: None is Poll::Pending. */
  function ExitPoll(x: Actor): Option<Outcome> {
    match x.phase
    case Dead(exit) => Some(if exit.Panicked? then PanicOutcome else ExitOutcome)
    case _ => None
  }

  /** An exit handle yields Panic exactly when a handler of the actor panicked, and then it was the last to begin. */
  lemma OutcomeMeans(s: System, a: ActorId)
    requires Reachable(s) && a in s.actors && ExitPoll(s.actors[a]).Some?
    ensures ExitPoll(s.actors[a]) == Some(PanicOutcome)
       <==> exists m <- s.msgs :: s.msgs[m].to == a && s.msgs[m].stage.Crashed?
    ensures forall m <- s.msgs :: s.msgs[m].to == a && s.msgs[m].stage.Crashed? ==> LastTaken(s.actors[a], m)
  {
    hide Reachable;
    var x := s.actors[a];
    forall m | m in s.msgs && s.msgs[m].to == a && s.msgs[m].stage.Crashed?
      ensures ExitPoll(x) == Some(PanicOutcome) && LastTaken(x, m)
    {
      CrashedIsLast(s, m);
    }
    if ExitPoll(x) == Some(PanicOutcome) {
      ActorAt(s, a);
      var i := |x.order| - 1;
      var m := x.order[i].1;
      TakenFrom(s, a, i);
      OneHandler(s, m, a);
      if s.msgs[m].stage.Handled? {
        HandledIsLogged(s, m);
        var j: nat :| j < |x.log| && x.log[j].msg == m;
        TakenOnce(s, a, i, j);
      }
    }
  }
}
