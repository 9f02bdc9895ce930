/** Forwarded results and streams: what is sent on, how often, and who is kept alive for it. */
module Forwarding {
  import opened Types
  import opened ActorSteps
  import opened Runtime
  import opened Ownership
  import opened Invariants
  import opened MessageProofs
  import opened MessageShapes
  import opened StructureProofs
  import opened ForwardProofs
  import opened Reachability
  import opened Delivery
  import opened Replies
  import opened Lifetime

  // ---- forward_to ----

  /** The messages that carry on the result of m. */
  function Sent(s: System, m: MsgId): set<MsgId> {
    set n | n in s.msgs && s.msgs[n].origin == Some(m)
  }

  /**
   * Exactly one message carries on the result of a forwarded message whose reply was run, to the recipient,
   * with the handler's value and a Discard path, and its enqueue was attempted; before that, and if the
   * handler never completes, there is none. No other message is ever carried on.
   */
  lemma ForwardedOnce(s: System, m: MsgId)
    requires Reachable(s) && m in s.msgs
    ensures if s.msgs[m].path.Mailbox? && s.msgs[m].stage.Handled? then
              exists n <- s.msgs ::
                && Sent(s, m) == {n} && s.msgs[n].payload == Converted(s.msgs[m].stage.value)
                && s.msgs[n].to == s.msgs[m].path.to && s.msgs[n].role == s.msgs[m].path.role
                && s.msgs[n].path.Discard? && (s.msgs[n].stage.Accepted() || s.msgs[n].stage.Refused?)
            else Sent(s, m) == {}
  {
    hide Reachable;
    MsgAt(s, m);
    ForwardsAt(s, m);
    if s.msgs[m].child.Some? {
      var n := s.msgs[m].child.value;
      assert Sent(s, m) == {n};
    } else {
      assert Sent(s, m) == {};
    }
  }

  lemma ForwardsAt(s: System, m: MsgId)
    requires Reachable(s) && m in s.msgs
    ensures s.msgs[m].child.Some? ==> Carries(s, m, s.msgs[m].child.value)
    ensures forall n <- s.msgs :: s.msgs[n].origin == Some(m) ==> Carries(s, m, n)
  {
    ReachableInv(s);
    hide Reachable, MsgsOk, Counted, LanesOk, LoopsOk, HistoriesOk, HandlersOk, FeedersOk, WellFormed;
  }

  /**
   * A result goes where it is to go before its actor handles anything else: unless the actor is just about to run
   * the return path of its last handler, every handler call that completed has been answered, and if its message
   * was forwarded, the value has been offered to the recipient.
   */
  lemma AnsweredBeforeNext(s: System, a: ActorId, i: nat)
    requires Reachable(s) && a in s.actors && i < |s.actors[a].log|
    requires s.actors[a].phase.Replying? ==> i < |s.actors[a].log| - 1
    ensures var d := s.actors[a].log[i];
            && d.msg in s.msgs && s.msgs[d.msg].to == a && s.msgs[d.msg].stage == Handled(d.value)
            && (s.msgs[d.msg].path.Mailbox? ==> |Sent(s, d.msg)| == 1)
            && (s.msgs[d.msg].path.Immediate? ==> s.msgs[d.msg].cell == Filled(d.value))
  {
    hide Reachable;
    var x := s.actors[a];
    var m := x.log[i].msg;
    ActorAt(s, a);
    TakenFrom(s, a, i);
    OneHandler(s, m, a);
    if s.msgs[m].stage.InHandler? { TakenOnce(s, a, i, if x.phase.Handling? then |x.order| - 1 else |x.log| - 1); }
    if s.msgs[m].stage.Crashed? {
      CrashedIsLast(s, m);
      TakenOnce(s, a, i, |x.order| - 1);
    }
    HandledIsLogged(s, m);
    var j: nat :| j < |x.log| && x.log[j].msg == m && x.log[j].value == s.msgs[m].stage.value;
    LoggedOnce(s, a, i, j);
    ForwardedOnce(s, m);
    MsgAt(s, m);
  }

  /**
   * A recipient is kept referenced until the forwarded message is answered or lost:
   * it cannot stop for lack of handles.
   */
  lemma RecipientKept(s: System, m: MsgId)
    requires Reachable(s) && m in s.msgs && s.msgs[m].path.Mailbox?
    requires s.msgs[m].stage.Held? || s.msgs[m].stage.Queued? || s.msgs[m].stage.InHandler?
    ensures s.msgs[m].path.to in s.actors
    ensures var x := s.actors[s.msgs[m].path.to];
            x.strong >= 1 && (!x.phase.Dead? ==> x.strong >= 2 && (IsRunning(x) <==> x.running))
  {
    hide Reachable;
    MsgAt(s, m);
    var b := s.msgs[m].path.to;
    ActorAt(s, b);
    assert m in Closures(s.msgs, b);
  }

  // ---- feed_to ----

  /** A feeder that has stopped. */
  predicate Finished(d: Feeder) {
    !d.live
  }

  /**
   * What a feeder got into the mailbox is an in-order, duplicate-free prefix of what it pulled from its stream:
   * all of it, unless the last enqueue was refused, and then all but that last item.
   */
  lemma StreamPrefix(s: System, f: FeederId)
    requires Reachable(s) && f in s.feeders
    ensures var d := s.feeders[f];
            && Exists(s, d.to, d.role)
            && |d.sent| == |d.pulled| - (if d.broke then 1 else 0)
            && Distinct(d.sent)
            && (forall i :: 0 <= i < |d.sent| ==>
                  d.sent[i] in s.msgs
                  && s.msgs[d.sent[i]].payload == d.pulled[i] && s.msgs[d.sent[i]].stage.Accepted())
            && (forall i, j :: 0 <= i < j < |d.sent| ==>
                  Before(s.actors[d.to].lanes[d.role].enqueued, d.sent[i], d.sent[j]))
  {
    hide Reachable;
    var d := s.feeders[f];
    FeederAt(s, f);
    LaneAt(s, d.to, d.role);
    var l := s.actors[d.to].lanes[d.role];
    forall i | 0 <= i < |d.sent| ensures s.msgs[d.sent[i]].stage.Accepted() {
      assert d.sent[i] in l.enqueued;
      OnePlace(s, d.sent[i], d.to, d.role);
      LaneTimes(l, d.sent[i]);
    }
    forall i, j | 0 <= i < j < |d.sent| ensures Before(l.enqueued, d.sent[i], d.sent[j]) {
      assert l.enqueued[d.positions[i]] == d.sent[i] && l.enqueued[d.positions[j]] == d.sent[j];
    }
  }

  lemma FeederAt(s: System, f: FeederId)
    requires Reachable(s) && f in s.feeders
    ensures FeederOk(s, s.feeders[f])
  {
    ReachableInv(s);
    hide Reachable, MsgsOk, Counted, LanesOk, LoopsOk, HistoriesOk, HandlersOk, ForwardsOk, WellFormed, FeederOk;
  }

  /** An actor cannot run out of handles while a feeder for it lives: unless stop is called it keeps running. */
  lemma FeederKeepsAlive(s: System, f: FeederId)
    requires Reachable(s) && f in s.feeders && s.feeders[f].live
    ensures s.feeders[f].to in s.actors
    ensures var x := s.actors[s.feeders[f].to];
            x.strong >= 1 && (!x.phase.Dead? ==> x.strong >= 2 && (IsRunning(x) <==> x.running))
  {
    hide Reachable;
    FeederAt(s, f);
    ActorAt(s, s.feeders[f].to);
    assert f in LiveFeeders(s.feeders, s.feeders[f].to);
  }

  lemma FinishedStep(s: System, e: Event, f: FeederId)
    requires Enabled(s, e) && MsgsOk(s) && f in s.feeders && Finished(s.feeders[f])
    ensures f in Apply(s, e).feeders && Apply(s, e).feeders[f] == s.feeders[f]
  {
    match e
    case Tick =>
    case Handle(u) =>
    case Envelope(v) => EnvelopeMoves(s, v);
    case Task(t) =>
      match t {
        case HelperSends(m) => SubmitMoves(s, m);
        case FeedItem(k, m, data) =>
          FeedAppends(s, k, m, Arguments(data));
          FeedKeepsOthers(s, k, m, Arguments(data), f);
        case _ =>
      }
    case Handler(a, h) => HandlerSteps(s, e);
    case Loop(a, l) => LoopSteps(s, e);
  }

  lemma FeedKeepsOthers(s: System, k: FeederId, m: MsgId, p: Payload, f: FeederId)
    requires k in s.feeders && m !in s.msgs && Exists(s, s.feeders[k].to, s.feeders[k].role)
    requires f in s.feeders && f != k
    ensures f in Feed(s, k, m, p).feeders && Feed(s, k, m, p).feeders[f] == s.feeders[f]
  {}

  /** After its stream ended or a send failed, a feeder pulls and sends nothing more. */
  lemma {:induction false} FinishedForGood(s: System, es: seq<Event>, f: FeederId)
    requires Reachable(s) && Valid(s, es) && f in s.feeders && Finished(s.feeders[f])
    ensures f in Final(s, es).feeders && Final(s, es).feeders[f] == s.feeders[f]
    decreases |es|
  {
    hide Reachable, Apply, Enabled, MsgsOk, LanesOk, HandlersOk, WellFormed;
    if es != [] {
      PartsAt(s);
      FinishedStep(s, es[0], f);
      StepReachable(s, es[0]);
      FinishedForGood(Apply(s, es[0]), es[1..], f);
    }
  }

  /**
   * When its stream ends a feeder is finished and gives up its handle: its actor's count is one lower, every other
   * owner stays, and if there was no other owner than the feeder the actor has none any more.
   */
  lemma StreamEnds(s: System, f: FeederId)
    requires Reachable(s) && TaskEnabled(s, FeedEnds(f))
    ensures var a := s.feeders[f].to; var t := Apply(s, Task(FeedEnds(f)));
            && a in s.actors && a in t.actors && f in t.feeders && Finished(t.feeders[f])
            && t.actors[a] == s.actors[a].(strong := s.actors[a].strong - 1)
            && Senders(t.msgs, a) == Senders(s.msgs, a) && Closures(t.msgs, a) == Closures(s.msgs, a)
            && LiveFeeders(t.feeders, a) == LiveFeeders(s.feeders, a) - {f}
            && (HasOtherOwner(t, a) <==> s.actors[a].external > 0 || Senders(s.msgs, a) != {}
                                         || Closures(s.msgs, a) != {} || LiveFeeders(s.feeders, a) - {f} != {})
  {
    hide Reachable;
    FeederAt(s, f);
  }

  /** A refused item ends the feeder in the same way. */
  lemma RefusedFeedEnds(s: System, f: FeederId, m: MsgId, data: Data)
    requires Reachable(s) && TaskEnabled(s, FeedItem(f, m, data))
    requires s.feeders[f].to in s.actors && !Accepting(s.actors[s.feeders[f].to])
    ensures var a := s.feeders[f].to; var t := Apply(s, Task(FeedItem(f, m, data)));
            && a in t.actors && f in t.feeders && Finished(t.feeders[f])
            && t.actors[a].strong == s.actors[a].strong - 1
            && LiveFeeders(t.feeders, a) == LiveFeeders(s.feeders, a) - {f}
  {}

  // ---- what a handle, an Envelope and a future are asked to do is what happens ----

  /** A call or send_when_ready goes to the actor and role it was made for, with its arguments, in every later state. */
  lemma SentWhereAsked(s: System, u: HandleEvent, es: seq<Event>)
    requires Reachable(s) && HandleEnabled(s, u) && (u.Call? || u.SendWhenReady?)
    requires Valid(Apply(s, Handle(u)), es)
    ensures var t := Final(Apply(s, Handle(u)), es);
            && u.m in t.msgs && t.msgs[u.m].to == u.a && t.msgs[u.m].role == u.r
            && t.msgs[u.m].payload == Arguments(u.data) && (u.SendWhenReady? ==> t.msgs[u.m].path.Discard?)
  {
    hide Reachable, Valid, Final;
    assert Enabled(s, Handle(u));
    StepReachable(s, Handle(u));
    RunForward(Apply(s, Handle(u)), es, u.m);
  }

  lemma FeederKeeps(s: System, e: Event, f: FeederId)
    requires Reachable(s) && Enabled(s, e) && f in s.feeders
    ensures f in Apply(s, e).feeders
    ensures Apply(s, e).feeders[f].to == s.feeders[f].to && Apply(s, e).feeders[f].role == s.feeders[f].role
  {
    hide Reachable, MsgsOk, LanesOk, HandlersOk, WellFormed, Submit, SendReply, Destroy;
    PartsAt(s);
    match e
    case Tick =>
    case Handle(u) =>
    case Envelope(v) => EnvelopeMoves(s, v);
    case Task(t) =>
      if t.HelperSends? { SubmitMoves(s, t.m); }
      if t.FeedItem? {
        FeedAppends(s, t.f, t.m, Arguments(t.data));
        if t.f != f { FeedKeepsOthers(s, t.f, t.m, Arguments(t.data), f); }
      }
    case Handler(a, h) => HandlerSteps(s, e);
    case Loop(a, l) => LoopSteps(s, e);
  }

  /** A stream is fed to the actor and role it was given for, and to no other. */
  lemma {:induction false} FedWhereAsked(s: System, es: seq<Event>, f: FeederId)
    requires Reachable(s) && Valid(s, es) && f in s.feeders
    ensures var t := Final(s, es);
            && f in t.feeders && t.feeders[f].to == s.feeders[f].to && t.feeders[f].role == s.feeders[f].role
            && forall m <- t.feeders[f].sent ::
                 m in t.msgs && t.msgs[m].to == s.feeders[f].to && t.msgs[m].role == s.feeders[f].role
    decreases |es|
  {
    hide Reachable, Apply, Enabled;
    if es == [] {
      StreamPrefix(s, f);
      FeederAt(s, f);
      LaneAt(s, s.feeders[f].to, s.feeders[f].role);
    } else {
      FeederKeeps(s, es[0], f);
      StepReachable(s, es[0]);
      FedWhereAsked(Apply(s, es[0]), es[1..], f);
    }
  }

  /** feed_to makes a live feeder for that actor and role, which has sent nothing yet and owns the handle given. */
  lemma FeedBegins(s: System, f: FeederId, a: ActorId, r: RoleId)
    requires HandleEnabled(s, FeedTo(f, a, r))
    ensures var t := Apply(s, Handle(FeedTo(f, a, r)));
            && f in t.feeders && t.feeders[f] == Feeder(a, r, true, false, [], [], [])
            && a in t.actors && t.actors[a].strong == s.actors[a].strong
            && t.actors[a].external == s.actors[a].external - 1
            && LiveFeeders(t.feeders, a) == LiveFeeders(s.feeders, a) + {f}
  {}

  /**
   * Dropping an Envelope, or the future that forward_to made of it, still sends the message: it is a helper's from
   * then on, which can send it at any time until it has; nothing is ever forwarded, and the recipient is released.
   */
  lemma DroppedIsSent(s: System, es: seq<Event>, m: MsgId)
    requires Reachable(s) && EnvelopeEnabled(s, DropEnvelope(m)) && Valid(Apply(s, Envelope(DropEnvelope(m))), es)
    ensures var t := Final(Apply(s, Envelope(DropEnvelope(m))), es);
            && m in t.msgs && (TaskEnabled(t, HelperSends(m)) || t.msgs[m].stage.Refused? || t.msgs[m].stage.Accepted())
            && Sent(t, m) == {}
    ensures s.msgs[m].path.Mailbox? ==>
              var b := s.msgs[m].path.to;
              b in s.actors && b in Apply(s, Envelope(DropEnvelope(m))).actors
              && Apply(s, Envelope(DropEnvelope(m))).actors[b].strong == s.actors[b].strong - 1
  {
    hide Reachable, Valid, Final;
    var s1 := Apply(s, Envelope(DropEnvelope(m)));
    assert Enabled(s, Envelope(DropEnvelope(m)));
    StepReachable(s, Envelope(DropEnvelope(m)));
    RunReachable(s1, es);
    RunForward(s1, es, m);
    ForwardedOnce(Final(s1, es), m);
    MsgAt(Final(s1, es), m);
  }

  /**
   * Dropping a ReturnCaster before its first poll sends nothing, ever, and gives up the handle it held; afterwards it
   * changes nothing about the message, which is handled or not as before.
   */
  lemma DroppedCaster(s: System, es: seq<Event>, m: MsgId)
    requires Reachable(s) && EnvelopeEnabled(s, DropCaster(m)) && Valid(Apply(s, Envelope(DropCaster(m))), es)
    ensures var s1 := Apply(s, Envelope(DropCaster(m))); var t := Final(s1, es); var a := s.msgs[m].to;
            && m in s1.msgs && m in t.msgs && a in s1.actors && s1.msgs[m].caster == Dropped
            && (if s.msgs[m].caster.Unsent? then
                  t.msgs[m].stage.Abandoned? && s1.actors[a].strong == s.actors[a].strong - 1
                else s1 == SetMsg(s, m, s.msgs[m].(caster := Dropped)))
  {
    hide Reachable, Valid, Final;
    assert Enabled(s, Envelope(DropCaster(m)));
    StepReachable(s, Envelope(DropCaster(m)));
    RunForward(Apply(s, Envelope(DropCaster(m))), es, m);
  }

  /** A helper whose future panics sends nothing, ever, and gives up its handle. */
  lemma DeadHelper(s: System, es: seq<Event>, m: MsgId)
    requires Reachable(s) && TaskEnabled(s, HelperDies(m)) && Valid(Apply(s, Task(HelperDies(m))), es)
    ensures var s1 := Apply(s, Task(HelperDies(m))); var t := Final(s1, es); var a := s.msgs[m].to;
            && m in t.msgs && t.msgs[m].stage.Abandoned?
            && a in s1.actors && s1.actors[a].strong == s.actors[a].strong - 1
  {
    hide Reachable, Valid, Final;
    assert Enabled(s, Task(HelperDies(m)));
    StepReachable(s, Task(HelperDies(m)));
    RunForward(Apply(s, Task(HelperDies(m))), es, m);
  }
}
