/** Every step keeps forwarded results and feeders in agreement with the messages. */
module ForwardProofs {
  import opened Types
  import opened ActorSteps
  import opened Runtime
  import opened Ownership
  import opened Invariants
  import opened MessageProofs
  import opened MessageShapes
  import opened StructureProofs
  import opened LoopProofs

  // ---- forwarded results ----

  lemma CarriesOn(s: System, e: Event, m: MsgId, n: MsgId)
    requires MsgsOk(s) && LanesOk(s) && HandlersOk(s) && Enabled(s, e) && Carries(s, m, n)
    ensures Carries(Apply(s, e), m, n)
  {
    hide MsgsOk, LanesOk, HandlersOk, TakesQueued, ActsOnCurrent;
    if e.Loop? { LoopTakesQueued(s, e.a, e.l); }
    if e.Handler? { HandlerActsOnCurrent(s, e.a, e.h); }
    NotAnswered(s, e, m);
    hide Apply, Enabled;
    MsgShape(s, e, m);
    MsgShape(s, e, n);
  }

  /** An answered message is not the one a handler or loop event works on. */
  lemma NotAnswered(s: System, e: Event, m: MsgId)
    requires Enabled(s, e) && m in s.msgs && s.msgs[m].stage.Handled?
    requires e.Loop? ==> TakesQueued(s, e.a, e.l)
    requires e.Handler? ==> ActsOnCurrent(s, e.a, e.h)
    ensures Target(s, e).Some? ==> Target(s, e).value.0 != m
  {}

  /** The reply to a forwarded message makes the one message that carries it on. */
  lemma ReplyCarries(s: System, a: ActorId, n: MsgId)
    requires HandlerEnabled(s, a, Replied(n)) && ActsOnCurrent(s, a, Replied(n))
    requires s.msgs[s.actors[a].phase.msg].path.Mailbox?
    ensures Carries(ApplyHandler(s, a, Replied(n)), s.actors[a].phase.msg, n)
  {
    hide SendReply;
    var x := s.actors[a];
    ReplyMoves(SetActor(s, a, x.(phase := LoopTop)), x.phase.msg, x.phase.value, n);
  }

  lemma KeepsChild(s: System, e: Event, m: MsgId)
    requires MsgsOk(s) && LanesOk(s) && HandlersOk(s) && ForwardsOk(s) && Enabled(s, e)
    requires m in Apply(s, e).msgs && Apply(s, e).msgs[m].child.Some?
    ensures Carries(Apply(s, e), m, Apply(s, e).msgs[m].child.value)
  {
    hide MsgsOk, LanesOk, HandlersOk, Apply, Enabled, Carries, ActsOnCurrent;
    if m !in s.msgs {
      NewShape(s, e, m);
    } else {
      MsgShape(s, e, m);
      if Apply(s, e).msgs[m].child == s.msgs[m].child {
        CarriesOn(s, e, m, s.msgs[m].child.value);
      } else {
        ReplyStep(s, e);
      }
    }
  }

  lemma ReplyStep(s: System, e: Event)
    requires HandlersOk(s) && Enabled(s, e) && e.Handler? && e.h.Replied?
    requires s.msgs[s.actors[e.a].phase.msg].path.Mailbox?
    ensures Carries(Apply(s, e), s.actors[e.a].phase.msg, e.h.n)
  {
    hide HandlersOk, ActsOnCurrent, Carries, ApplyHandler;
    HandlerActsOnCurrent(s, e.a, e.h);
    ReplyCarries(s, e.a, e.h.n);
  }

  lemma KeepsOrigin(s: System, e: Event, n: MsgId)
    requires MsgsOk(s) && LanesOk(s) && HandlersOk(s) && ForwardsOk(s) && Enabled(s, e)
    requires n in Apply(s, e).msgs && Apply(s, e).msgs[n].origin.Some?
    ensures Carries(Apply(s, e), Apply(s, e).msgs[n].origin.value, n)
  {
    hide MsgsOk, LanesOk, HandlersOk, Apply, Enabled, Carries, ActsOnCurrent;
    if n in s.msgs {
      MsgShape(s, e, n);
      CarriesOn(s, e, s.msgs[n].origin.value, n);
    } else {
      NewShape(s, e, n);
      ReplyStep(s, e);
    }
  }

  lemma KeepsForwards(s: System, e: Event)
    requires MsgsOk(s) && LanesOk(s) && HandlersOk(s) && ForwardsOk(s) && Enabled(s, e)
    ensures ForwardsOk(Apply(s, e))
  {
    hide MsgsOk, LanesOk, HandlersOk, Apply, Enabled, Carries;
    var t := Apply(s, e);
    forall m | m in t.msgs && t.msgs[m].child.Some? ensures Carries(t, m, t.msgs[m].child.value) {
      KeepsChild(s, e, m);
    }
    forall n | n in t.msgs && t.msgs[n].origin.Some? ensures Carries(t, t.msgs[n].origin.value, n) {
      KeepsOrigin(s, e, n);
    }
  }

  // ---- feeders ----

  lemma OwnKeepsArrivals(s: System, e: Event, a: ActorId, r: RoleId)
    requires Enabled(s, e) && Exists(s, a, r)
    ensures r in Own(s, e, a).lanes && Own(s, e, a).lanes[r].enqueued == s.actors[a].lanes[r].enqueued
  {
    hide Apply;
  }

  /** A mailbox's history only grows, at its end. */
  lemma EnqueuedGrows(s: System, e: Event, a: ActorId, r: RoleId)
    requires Enabled(s, e) && Exists(s, a, r)
    ensures Exists(Apply(s, e), a, r)
    ensures s.actors[a].lanes[r].enqueued <= Apply(s, e).actors[a].lanes[r].enqueued
  {
    hide Apply, Enabled;
    ActorShape(s, e, a);
    OwnKeepsArrivals(s, e, a, r);
    hide Own;
    var y := Own(s, e, a);
    assert Appended(y.lanes[r], Apply(s, e).actors[a].lanes[r]);
  }

  /** A feeder that does not act in this step. */
  lemma FeederWaits(s: System, e: Event, d: Feeder)
    requires MsgsOk(s) && Enabled(s, e) && FeederOk(s, d)
    ensures FeederOk(Apply(s, e), d)
  {
    hide Apply, Enabled, MsgsOk;
    EnqueuedGrows(s, e, d.to, d.role);
    forall i | 0 <= i < |d.sent|
      ensures d.sent[i] in Apply(s, e).msgs && Apply(s, e).msgs[d.sent[i]].payload == d.pulled[i]
    {
      MsgShape(s, e, d.sent[i]);
    }
  }

  /** The mailbox a feeder sends to, after one turn of its loop. */
  lemma FeedAppends(s: System, f: FeederId, m: MsgId, p: Payload)
    requires f in s.feeders && m !in s.msgs && Exists(s, s.feeders[f].to, s.feeders[f].role)
    ensures var d := s.feeders[f]; var t := Feed(s, f, m, p);
            && Exists(t, d.to, d.role) && f in t.feeders
            && t.actors[d.to].lanes[d.role].enqueued
               == s.actors[d.to].lanes[d.role].enqueued + (if Accepting(s.actors[d.to]) then [m] else [])
            && (forall k <- t.feeders :: k != f ==> k in s.feeders && t.feeders[k] == s.feeders[k])
            && t.feeders[f] ==
                 if Accepting(s.actors[d.to]) then
                   d.(pulled := d.pulled + [p], sent := d.sent + [m],
                      positions := d.positions + [|s.actors[d.to].lanes[d.role].enqueued|])
                 else d.(pulled := d.pulled + [p], live := false, broke := true)
  {}

  lemma FeedKeeps(s: System, f: FeederId, m: MsgId, data: Data)
    requires MsgsOk(s) && TaskEnabled(s, FeedItem(f, m, data)) && FeederOk(s, s.feeders[f])
    ensures f in ApplyTask(s, FeedItem(f, m, data)).feeders
    ensures FeederOk(ApplyTask(s, FeedItem(f, m, data)), ApplyTask(s, FeedItem(f, m, data)).feeders[f])
  {
    hide Feed, MsgsOk;
    var d := s.feeders[f];
    FeedAppends(s, f, m, Arguments(data));
    FeedMoves(s, f, m, Arguments(data));
  }

  lemma OtherFeeders(s: System, e: Event, f: FeederId)
    requires MsgsOk(s) && Enabled(s, e) && f in Apply(s, e).feeders
    requires !(e.Task? && e.t.FeedItem? && e.t.f == f)
    ensures var d := Apply(s, e).feeders[f];
            (f in s.feeders && (d == s.feeders[f] || d == s.feeders[f].(live := false)))
            || (f !in s.feeders && d.pulled == [] && d.sent == [] && d.positions == [] && !d.broke
                && Exists(s, d.to, d.role))
  {
    match e
    case Tick =>
    case Handle(u) =>
    case Envelope(v) => EnvelopeMoves(s, v);
    case Task(t) =>
      match t {
        case HelperSends(m) => SubmitMoves(s, m);
        case FeedItem(k, m, data) => FeedAppends(s, k, m, Arguments(data));
        case _ =>
      }
    case Handler(a, h) => HandlerSteps(s, e);
    case Loop(a, l) => LoopSteps(s, e);
  }

  lemma KeepsFeeders(s: System, e: Event)
    requires MsgsOk(s) && FeedersOk(s) && Enabled(s, e)
    ensures FeedersOk(Apply(s, e))
  {
    hide MsgsOk, Apply, FeederOk;
    forall f | f in Apply(s, e).feeders ensures FeederOk(Apply(s, e), Apply(s, e).feeders[f]) {
      KeepsFeeder(s, e, f);
    }
  }

  lemma KeepsFeeder(s: System, e: Event, f: FeederId)
    requires MsgsOk(s) && FeedersOk(s) && Enabled(s, e) && f in Apply(s, e).feeders
    ensures FeederOk(Apply(s, e), Apply(s, e).feeders[f])
  {
    hide MsgsOk, Apply;
    var d := Apply(s, e).feeders[f];
    if e.Task? && e.t.FeedItem? && e.t.f == f {
      FeedStep(s, e);
    } else {
      OtherFeeders(s, e, f);
      if f in s.feeders {
        FeederWaits(s, e, s.feeders[f]);
      } else {
        EnqueuedGrows(s, e, d.to, d.role);
      }
    }
  }

  lemma FeedStep(s: System, e: Event)
    requires MsgsOk(s) && FeedersOk(s) && Enabled(s, e) && e.Task? && e.t.FeedItem?
    requires e.t.f in Apply(s, e).feeders
    ensures FeederOk(Apply(s, e), Apply(s, e).feeders[e.t.f])
  {
    hide ApplyTask, FeederOk, MsgsOk;
    FeedKeeps(s, e.t.f, e.t.m, e.t.data);
  }
}
