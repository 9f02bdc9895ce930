/** Every schedule is explained by handling the messages one at a time. */
module Sequential {
  import opened Types
  import opened ActorSteps
  import opened Runtime
  import opened Invariants
  import opened Reachability
  import opened Delivery
  import opened Replies
  import opened StructureProofs
  import opened Lifetime
  import opened Aftermath

  datatype Ending = Completes(after: UserState, value: Value) | PanicsIn(after: UserState)

  /** User code as a function: how the handler of a message ends when it is run on a state. */
  type Behaviour = (MsgId, UserState) -> Ending

  /** The state after the messages' handlers run one after the other. */
  function RunAll(h: Behaviour, st: UserState, ms: seq<MsgId>): UserState {
    if ms == [] then st
    else h(ms[|ms| - 1], RunAll(h, st, ms[..|ms| - 1])).after
  }

  /** The messages taken out of the mailboxes, oldest first. */
  function Messages(order: seq<(RoleId, MsgId)>): seq<MsgId> {
    seq(|order|, i requires 0 <= i < |order| => order[i].1)
  }

  /** Each recorded handler call, the one that panicked included, did what h does. */
  ghost predicate Follows(x: Actor, h: Behaviour) {
    && (forall i :: 0 <= i < |x.log| ==> h(x.log[i].msg, x.log[i].before) == Completes(x.log[i].after, x.log[i].value))
    && (x.fault.Some? && x.order != [] ==>
          h(x.order[|x.order| - 1].1, x.fault.value.before) == PanicsIn(x.fault.value.after))
  }

  /** The k-th completed handler started from the result of running the ones before it alone. */
  lemma {:induction false} LogIsRun(x: Actor, h: Behaviour, k: nat)
    requires HistoryOk(x) && Follows(x, h) && k <= |x.log|
    ensures RunAll(h, x.initial, Messages(x.order)[..k])
         == if k == 0 then x.initial else x.log[k - 1].after
    ensures k < |x.log| ==> x.log[k].before == RunAll(h, x.initial, Messages(x.order)[..k])
  {
    if k > 0 {
      LogIsRun(x, h, k - 1);
      assert Messages(x.order)[..k][..k - 1] == Messages(x.order)[..k - 1];
    }
  }

  /**
   * h gives the actor's whole history: its state is that of running, one at a time, the handlers of all messages
   * taken out (of all but the last while that one's handler is still running). After a panic the last of them
   * started on the result of the others and panicked, and no other did.
   */
  ghost predicate Explains(x: Actor, h: Behaviour) {
    var ms := Messages(x.order);
    && (x.phase.Handling? ==> ms != [] && x.state == RunAll(h, x.initial, ms[..|ms| - 1]))
    && (!x.phase.Handling? ==> x.state == RunAll(h, x.initial, ms))
    && (x.fault.Some? ==> ms != [] && x.fault.value.before == RunAll(h, x.initial, ms[..|ms| - 1])
                          && h(ms[|ms| - 1], x.fault.value.before) == PanicsIn(x.state))
    && |x.log| == |ms| - (if x.phase.Handling? || x.fault.Some? then 1 else 0)
    && (forall i :: 0 <= i < |x.log| ==> h(ms[i], RunAll(h, x.initial, ms[..i])).Completes?)
  }

  lemma HistoryExplained(x: Actor, h: Behaviour)
    requires HistoryOk(x) && Follows(x, h)
    ensures Explains(x, h)
  {
    hide RunAll;
    var ms := Messages(x.order);
    LogIsRun(x, h, |x.log|);
    forall i | 0 <= i < |x.log| ensures h(ms[i], RunAll(h, x.initial, ms[..i])).Completes? { LogIsRun(x, h, i); }
    assert |x.log| == |ms| ==> ms[..|ms|] == ms;
    if x.fault.Some? { RunLast(h, x.initial, ms); }
  }

  lemma RunLast(h: Behaviour, st: UserState, ms: seq<MsgId>)
    requires ms != []
    ensures RunAll(h, st, ms) == h(ms[|ms| - 1], RunAll(h, st, ms[..|ms| - 1])).after
  {}

  /**
   * The state handed to `stop` or `catch` is that of running the handlers of all messages taken out, one at a time,
   * in an order that restricted to each role is the order of that role's mailbox; `catch` gets it exactly if the
   * last of them panics there.
   */
  lemma SequentialState(s: System, a: ActorId, h: Behaviour)
    requires Reachable(s) && a in s.actors && Follows(s.actors[a], h)
    ensures var x := s.actors[a];
            && (forall r <- x.lanes :: Project(x.order, r) == x.lanes[r].began <= x.lanes[r].enqueued)
            && Explains(x, h)
            && (x.phase.Finalizing? ==>
                  var ms := Messages(x.order);
                  x.state == RunAll(h, x.initial, ms)
                  && (x.phase.exit.Panicked? <==>
                        ms != [] && h(ms[|ms| - 1], RunAll(h, x.initial, ms[..|ms| - 1])).PanicsIn?))
  {
    hide Reachable, RunAll;
    var x := s.actors[a];
    ActorAt(s, a);
    HistoryExplained(x, h);
    forall r | r in x.lanes ensures Project(x.order, r) == x.lanes[r].began <= x.lanes[r].enqueued {
      Fifo(s, a, r);
    }
  }

  /** Every Ok(v) of the actor's casters is what h returns at that message's place. */
  ghost predicate Answers(s: System, m: MsgId, h: Behaviour)
    requires m in s.msgs && s.msgs[m].caster.Resolved? && s.msgs[m].caster.reply.Ok? && s.msgs[m].to in s.actors
  {
    var x := s.actors[s.msgs[m].to]; var ms := Messages(x.order);
    exists i, st ::
      0 <= i < |ms| && ms[i] == m && h(m, RunAll(h, x.initial, ms[..i])) == Completes(st, s.msgs[m].caster.reply.value)
  }

  /** Ok(v) is what the message's handler returns when run on the result of the handlers before it. */
  lemma SequentialReply(s: System, m: MsgId, h: Behaviour)
    requires Reachable(s) && m in s.msgs && s.msgs[m].to in s.actors && Follows(s.actors[s.msgs[m].to], h)
    requires s.msgs[m].caster.Resolved? && s.msgs[m].caster.reply.Ok?
    ensures Answers(s, m, h)
  {
    hide Reachable, RunAll;
    var x := s.actors[s.msgs[m].to];
    ReplyIsTruth(s, m);
    ActorAt(s, s.msgs[m].to);
    var i: nat :| i < |x.log| && x.log[i].msg == m && x.log[i].value == s.msgs[m].caster.reply.value;
    LogIsRun(x, h, i);
    var ms := Messages(x.order);
    assert ms[i] == m && h(m, RunAll(h, x.initial, ms[..i])) == Completes(x.log[i].after, x.log[i].value);
  }

  /** A behaviour that does to the recorded messages what the log records, and panics in `otherwise` on any other. */
  function Explanation(log: seq<Done>, otherwise: UserState): Behaviour {
    if log == [] then (m: MsgId, st: UserState) => PanicsIn(otherwise)
    else
      var last := log[|log| - 1];
      var rest := Explanation(log[..|log| - 1], otherwise);
      (m: MsgId, st: UserState) => if m == last.msg then Completes(last.after, last.value) else rest(m, st)
  }

  lemma {:induction false} ExplanationFollows(log: seq<Done>, otherwise: UserState)
    requires forall i, j :: 0 <= i < j < |log| ==> log[i].msg != log[j].msg
    ensures forall i :: 0 <= i < |log| ==>
              Explanation(log, otherwise)(log[i].msg, log[i].before) == Completes(log[i].after, log[i].value)
    ensures forall m, st :: (forall i :: 0 <= i < |log| ==> log[i].msg != m) ==>
              Explanation(log, otherwise)(m, st) == PanicsIn(otherwise)
  {
    if log != [] {
      var front := log[..|log| - 1];
      ExplanationFollows(front, otherwise);
      forall i | 0 <= i < |front|
        ensures Explanation(log, otherwise)(log[i].msg, log[i].before) == Completes(log[i].after, log[i].value)
      {
        assert log[i] == front[i];
      }
      forall m, st | forall i :: 0 <= i < |log| ==> log[i].msg != m
        ensures Explanation(log, otherwise)(m, st) == PanicsIn(otherwise)
      {
        assert forall i :: 0 <= i < |front| ==> front[i] == log[i];
      }
    }
  }

  /** The message whose handler panicked has no completed call. */
  lemma FaultNotLogged(s: System, a: ActorId, i: nat)
    requires Reachable(s) && a in s.actors && s.actors[a].fault.Some? && i < |s.actors[a].log|
    ensures s.actors[a].order != [] && s.actors[a].log[i].msg != s.actors[a].order[|s.actors[a].order| - 1].1
  {
    hide Reachable;
    ActorAt(s, a);
    var x := s.actors[a];
    if x.log[i].msg == x.order[|x.order| - 1].1 { TakenOnce(s, a, i, |x.order| - 1); }
  }

  /**
   * Whatever the schedule and the handlers did, there is one behaviour of the handlers under which running the
   * messages one at a time, in the order in which they were taken, gives the actor's state, every reply it gave,
   * and the panic if there was one.
   */
  lemma AlwaysExplained(s: System, a: ActorId)
    requires Reachable(s) && a in s.actors
    ensures exists h: Behaviour ::
              Follows(s.actors[a], h) && Explains(s.actors[a], h)
              && forall m <- s.msgs ::
                   s.msgs[m].to == a && s.msgs[m].caster.Resolved? && s.msgs[m].caster.reply.Ok? ==> Answers(s, m, h)
  {
    hide Reachable, Explains, Answers;
    var x := s.actors[a];
    var log := x.log;
    forall i, j | 0 <= i < j < |log| ensures log[i].msg != log[j].msg {
      if log[i].msg == log[j].msg { LoggedOnce(s, a, i, j); }
    }
    var h := Explanation(log, x.state);
    ExplanationFollows(log, x.state);
    ActorAt(s, a);
    forall i: nat | x.fault.Some? && i < |log| ensures log[i].msg != x.order[|x.order| - 1].1 {
      FaultNotLogged(s, a, i);
    }
    assert Follows(x, h);
    HistoryExplained(x, h);
    forall m | m in s.msgs && s.msgs[m].to == a && s.msgs[m].caster.Resolved? && s.msgs[m].caster.reply.Ok?
      ensures Answers(s, m, h)
    {
      SequentialReply(s, m, h);
    }
  }

  // ---- the record is of what happened ----

  lemma RecordGrows(s: System, e: Event, a: ActorId)
    requires Enabled(s, e) && a in s.actors
    ensures a in Apply(s, e).actors
    ensures var x, y := s.actors[a], Apply(s, e).actors[a];
            && x.log <= y.log && y.initial == x.initial && y.lanes.Keys == x.lanes.Keys
            && (HasLeft(x) ==> y.fault == x.fault && y.state == x.state && HasLeft(y))
  {
    hide Apply;
    ActorShape(s, e, a);
  }

  lemma {:induction false} RecordGrowsOn(s: System, es: seq<Event>, a: ActorId)
    requires Valid(s, es) && a in s.actors
    ensures a in Final(s, es).actors
    ensures var x, y := s.actors[a], Final(s, es).actors[a];
            && x.log <= y.log && y.initial == x.initial && y.lanes.Keys == x.lanes.Keys
            && (HasLeft(x) ==> y.fault == x.fault && y.state == x.state)
    decreases |es|
  {
    hide Apply, Enabled;
    if es != [] {
      RecordGrows(s, es[0], a);
      RecordGrowsOn(Apply(s, es[0]), es[1..], a);
    }
  }

  /** An actor starts from the state given to `start`, with the roles it has, for good. */
  lemma StartRecorded(s: System, a: ActorId, roles: set<RoleId>, init: UserState, es: seq<Event>)
    requires Enabled(s, Handle(Start(a, roles, init))) && Valid(Apply(s, Handle(Start(a, roles, init))), es)
    ensures var t := Final(Apply(s, Handle(Start(a, roles, init))), es);
            a in t.actors && t.actors[a].initial == init && t.actors[a].lanes.Keys == roles
  {
    hide Valid, Final;
    RecordGrowsOn(Apply(s, Handle(Start(a, roles, init))), es, a);
  }

  lemma ReturnRecorded(s: System, a: ActorId, st: UserState, v: Value)
    requires Enabled(s, Handler(a, Returned(st, v)))
    ensures var t := Apply(s, Handler(a, Returned(st, v)));
            && a in s.actors && a in t.actors && s.actors[a].phase.Handling? && t.actors[a].state == st
            && t.actors[a].log == s.actors[a].log + [Done(s.actors[a].phase.msg, s.actors[a].state, st, v)]
  {}

  /** A completed handler call is on record for good: what it was called with, what it left, and what it returned. */
  lemma CallRecorded(s: System, a: ActorId, st: UserState, v: Value, es: seq<Event>)
    requires Enabled(s, Handler(a, Returned(st, v))) && Valid(Apply(s, Handler(a, Returned(st, v))), es)
    ensures a in s.actors && s.actors[a].phase.Handling?
    ensures var x := s.actors[a]; var t := Final(Apply(s, Handler(a, Returned(st, v))), es);
            && a in t.actors && |t.actors[a].log| > |x.log|
            && t.actors[a].log[|x.log|] == Done(x.phase.msg, x.state, st, v)
  {
    hide Valid, Final, Apply, Enabled;
    ReturnRecorded(s, a, st, v);
    RecordGrowsOn(Apply(s, Handler(a, Returned(st, v))), es, a);
  }

  lemma PanicsWith(s: System, a: ActorId, st: UserState)
    requires Enabled(s, Handler(a, Panics(st)))
    ensures var t := Apply(s, Handler(a, Panics(st)));
            && a in s.actors && a in t.actors && HasLeft(t.actors[a]) && t.actors[a].state == st
            && t.actors[a].fault == Some(Fault(s.actors[a].state, st))
  {
    ActorShape(s, Handler(a, Panics(st)), a);
  }

  /** `catch` gets the state the panicking handler left, and so does everybody who looks later. */
  lemma PanicRecorded(s: System, a: ActorId, st: UserState, es: seq<Event>)
    requires Enabled(s, Handler(a, Panics(st))) && Valid(Apply(s, Handler(a, Panics(st))), es)
    ensures a in s.actors
    ensures var t := Final(Apply(s, Handler(a, Panics(st))), es);
            a in t.actors && t.actors[a].state == st && t.actors[a].fault == Some(Fault(s.actors[a].state, st))
  {
    hide Valid, Final, Apply, Enabled;
    PanicsWith(s, a, st);
    RecordGrowsOn(Apply(s, Handler(a, Panics(st))), es, a);
  }
}
