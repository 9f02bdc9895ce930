/** Every step keeps running handlers, handler results and forwarded results in agreement with the messages. */
module HandlerProofs {
  import opened Types
  import opened ActorSteps
  import opened Runtime
  import opened Ownership
  import opened Invariants
  import opened MessageProofs
  import opened MessageShapes
  import opened StructureProofs
  import opened LoopProofs

  /** The results and the handler state of an actor as its messages see them. */
  predicate SameHandlers(x: Actor, x': Actor) {
    && x'.phase.Current() == x.phase.Current()
    && x.log <= x'.log
    && (Unfinished(x) && !x.phase.Handling? ==> Unfinished(x') && !x'.phase.Handling? && x'.order == x.order)
  }

  /** Except for actor a and message m, nothing a handler is concerned with changed. */
  ghost predicate HandlersQuiet(s: System, t: System) {
    && (forall a <- s.actors :: a in t.actors && SameHandlers(s.actors[a], t.actors[a]))
    && (forall a <- t.actors :: a !in s.actors ==> t.actors[a].phase.Current().None?)
    && (forall m <- s.msgs :: m in t.msgs && t.msgs[m].to == s.msgs[m].to
          && (s.msgs[m].stage.InHandler? ==> t.msgs[m].stage.InHandler?))
    && (forall m <- t.msgs | t.msgs[m].stage.InHandler? || t.msgs[m].stage.Handled? || t.msgs[m].stage.Crashed? ::
          m in s.msgs && s.msgs[m].stage == t.msgs[m].stage)
  }

  lemma QuietHandlers(s: System, t: System)
    requires HandlersOk(s) && HandlersQuiet(s, t)
    ensures HandlersOk(t)
  {}

  lemma OwnSameHandlers(s: System, e: Event, a: ActorId)
    requires Enabled(s, e) && a in s.actors
    requires Target(s, e).None? || (e.Loop? && e.l.QueueDropped?)
    ensures SameHandlers(s.actors[a], Own(s, e, a))
  {}

  lemma StepSameHandlers(s: System, e: Event, a: ActorId)
    requires Enabled(s, e) && a in s.actors
    requires SameHandlers(s.actors[a], Own(s, e, a))
    ensures a in Apply(s, e).actors && SameHandlers(s.actors[a], Apply(s, e).actors[a])
  {
    ActorShape(s, e, a);
  }

  predicate KeepsPlaceInHandler(g: Msg, g': Msg) {
    && g'.to == g.to
    && (g.stage.InHandler? <==> g'.stage.InHandler?)
    && (g.stage.Handled? || g.stage.Crashed? || g'.stage.Handled? || g'.stage.Crashed? ==> g.stage == g'.stage)
  }

  lemma QuietMsgStep(s: System, e: Event, m: MsgId)
    requires MsgsOk(s) && Enabled(s, e) && m in s.msgs
    requires Target(s, e).None? || (e.Loop? && e.l.QueueDropped? && TakesQueued(s, e.a, e.l))
    ensures m in Apply(s, e).msgs && KeepsPlaceInHandler(s.msgs[m], Apply(s, e).msgs[m])
  {
    hide MsgsOk, Apply, Enabled;
    MsgShape(s, e, m);
  }

  /** A step that neither begins, completes nor crashes a handler. */
  lemma HandlersQuietStep(s: System, e: Event)
    requires MsgsOk(s) && LanesOk(s) && Enabled(s, e)
    requires Target(s, e).None? || (e.Loop? && e.l.QueueDropped?)
    ensures HandlersQuiet(s, Apply(s, e))
  {
    hide LanesOk, MsgsOk, Apply, SameHandlers, TakesQueued;
    var t := Apply(s, e);
    forall a | a in s.actors ensures a in t.actors && SameHandlers(s.actors[a], t.actors[a]) {
      OwnSameHandlers(s, e, a);
      StepSameHandlers(s, e, a);
    }
    forall a | a in t.actors && a !in s.actors ensures t.actors[a].phase.Current().None? { Started(s, e, a); }
    if e.Loop? { LoopTakesQueued(s, e.a, e.l); }
    hide Enabled;
    forall m | m in s.msgs ensures m in t.msgs && KeepsPlaceInHandler(s.msgs[m], t.msgs[m]) { QuietMsgStep(s, e, m); }
    forall m | m in t.msgs && m !in s.msgs
      ensures !t.msgs[m].stage.InHandler? && !t.msgs[m].stage.Handled? && !t.msgs[m].stage.Crashed?
    { NewShape(s, e, m); }
  }

  lemma ReceivedKeepsHandlers(s: System, a: ActorId, r: RoleId)
    requires HandlersOk(s) && LoopEnabled(s, a, Received(r)) && TakesQueued(s, a, Received(r))
    ensures HandlersOk(ApplyLoop(s, a, Received(r)))
  {}

  lemma PanicKeepsHandlers(s: System, a: ActorId, st: UserState)
    requires HandlersOk(s) && HandlerEnabled(s, a, Panics(st)) && ActsOnCurrent(s, a, Panics(st))
    requires LastTaken(s.actors[a], s.actors[a].phase.msg)
    ensures HandlersOk(ApplyHandler(s, a, Panics(st)))
  {
    var x := s.actors[a];
    var m := x.phase.msg;
    var g := s.msgs[m];
    var g' := g.(stage := Crashed, cell := if g.path.Immediate? then Broken else g.cell);
    var s1 := SetMsg(SetActor(s, a, Crash(x, st)), m, g');
    CrashedHandlers(s, a, st, g');
    hide HandlersOk;
    QuietHandlers(s1, ReleaseRecipient(s1, g.path));
  }

  lemma CrashedHandlers(s: System, a: ActorId, st: UserState, g': Msg)
    requires HandlersOk(s) && a in s.actors && HandlerFree(s.actors[a])
    requires LastTaken(s.actors[a], s.actors[a].phase.msg)
    requires g'.to == a && g'.stage.Crashed?
    ensures HandlersOk(SetMsg(SetActor(s, a, Crash(s.actors[a], st)), s.actors[a].phase.msg, g'))
  {}

  /** The answered message is out of its handler with the value its handler returned. */
  lemma AnswerKeepsHandlers(s: System, a: ActorId, g: Msg)
    requires HandlersOk(s) && a in s.actors && HistoryOk(s.actors[a]) && s.actors[a].phase.Replying?
    requires s.actors[a].phase.msg in s.msgs
    requires g.to == a && g.stage == Handled(s.actors[a].phase.value)
    ensures HandlersOk(SetMsg(SetActor(s, a, s.actors[a].(phase := LoopTop)), s.actors[a].phase.msg, g))
  {
    var x := s.actors[a];
    assert x.log[|x.log| - 1].msg == x.phase.msg;
  }

  lemma SubmitKeepsHandlers(s: System, m: MsgId)
    requires HandlersOk(s) && Rooted(s, m) && s.msgs[m].stage.OwnsDestination()
    ensures HandlersOk(Submit(s, m))
  {
    hide HandlersOk;
    SubmitOutside(s, m);
    SubmitMoves(s, m);
    QuietHandlers(s, Submit(s, m));
  }

  lemma ForwardKeepsHandlers(s: System, n: MsgId, sent: Msg)
    requires HandlersOk(s) && n !in s.msgs && sent.stage.Spawned?
    requires Rooted(SetMsg(s, n, sent), n)
    ensures HandlersOk(Submit(SetMsg(s, n, sent), n))
  {
    hide HandlersOk;
    QuietHandlers(s, SetMsg(s, n, sent));
    SubmitKeepsHandlers(SetMsg(s, n, sent), n);
  }

  lemma ReplyKeepsHandlers(s: System, a: ActorId, n: MsgId)
    requires HandlersOk(s) && HandlerEnabled(s, a, Replied(n)) && ActsOnCurrent(s, a, Replied(n))
    requires HistoryOk(s.actors[a])
    ensures HandlersOk(ApplyHandler(s, a, Replied(n)))
  {
    hide HandlersOk, HistoryOk, Submit;
    var x := s.actors[a];
    var m, v := x.phase.msg, x.phase.value;
    var g := s.msgs[m];
    match g.path
    case Discard => AnswerKeepsHandlers(s, a, g.(stage := Handled(v)));
    case Immediate => AnswerKeepsHandlers(s, a, g.(stage := Handled(v), cell := Filled(v)));
    case Mailbox(b, br) =>
      var g' := g.(stage := Handled(v), child := Some(n));
      AnswerKeepsHandlers(s, a, g');
      ForwardKeepsHandlers(SetMsg(SetActor(s, a, x.(phase := LoopTop)), m, g'), n,
                           NewMsg(b, br, Converted(v), Spawned(true), Some(m)));
  }

  lemma HandlingIsLast(s: System, a: ActorId)
    requires HistoriesOk(s) && a in s.actors && s.actors[a].phase.Handling?
    ensures LastTaken(s.actors[a], s.actors[a].phase.msg)
  {
    assert HistoryOk(s.actors[a]);
  }

  lemma KeepsHandlers(s: System, e: Event)
    requires MsgsOk(s) && HandlersOk(s) && LanesOk(s) && HistoriesOk(s) && Enabled(s, e)
    ensures HandlersOk(Apply(s, e))
  {
    hide LanesOk, HistoryOk, MsgsOk, HandlersOk, HandlersQuiet, TakesQueued, ActsOnCurrent, ApplyLoop, ApplyHandler;
    if e.Loop? && e.l.Received? {
      LoopTakesQueued(s, e.a, e.l);
      ReceivedKeepsHandlers(s, e.a, e.l.r);
    } else if e.Handler? && e.h.Panics? {
      HandlerActsOnCurrent(s, e.a, e.h);
      HandlingIsLast(s, e.a);
      PanicKeepsHandlers(s, e.a, e.h.st);
    } else if e.Handler? && e.h.Replied? {
      HandlerActsOnCurrent(s, e.a, e.h);
      assert HistoryOk(s.actors[e.a]);
      ReplyKeepsHandlers(s, e.a, e.h.n);
    } else {
      HandlersQuietStep(s, e);
      QuietHandlers(s, Apply(s, e));
    }
  }
}
