/** The strong count of every actor is exactly the number of things that own a handle of it. */
module Ownership {
  import opened Types
  import opened ActorSteps
  import opened Runtime

  /** Messages that own a handle of a as their destination. */
  function Senders(msgs: map<MsgId, Msg>, a: ActorId): set<MsgId> {
    set m | m in msgs && msgs[m].stage.OwnsDestination() && msgs[m].to == a
  }

  /** A Mailbox closure exists until its message is answered or destroyed. */
  predicate OwnsRecipient(g: Msg, a: ActorId) {
    g.path.Mailbox? && g.path.to == a && (g.stage.Held? || g.stage.Queued? || g.stage.InHandler?)
  }

  /** Messages whose return path owns a handle of a. */
  function Closures(msgs: map<MsgId, Msg>, a: ActorId): set<MsgId> {
    set m | m in msgs && OwnsRecipient(msgs[m], a)
  }

  /** Live feed_to tasks own a handle of their actor. */
  function LiveFeeders(feeders: map<FeederId, Feeder>, a: ActorId): set<FeederId> {
    set f | f in feeders && feeders[f].live && feeders[f].to == a
  }

  /** The number of owners of a handle of a. */
  function Owners(s: System, a: ActorId): int
    requires a in s.actors
  {
    ContextShare(s.actors[a]) + s.actors[a].external
    + |Senders(s.msgs, a)| + |Closures(s.msgs, a)| + |LiveFeeders(s.feeders, a)|
  }

  predicate CountExact(s: System, a: ActorId)
    requires a in s.actors
  {
    s.actors[a].strong == Owners(s, a)
  }

  ghost predicate Counted(s: System) {
    forall a <- s.actors :: CountExact(s, a)
  }

  /** How far the count is from the owners while an event is half done. */
  function Excess(s: System, a: ActorId): int
    requires a in s.actors
  {
    s.actors[a].strong - Owners(s, a)
  }

  function Bit(b: bool): int {
    if b then 1 else 0
  }

  /** The handles of a that message g owns. */
  function Share(g: Msg, a: ActorId): int {
    Bit(g.stage.OwnsDestination() && g.to == a) + Bit(OwnsRecipient(g, a))
  }

  lemma SetSwap<T>(before: set<T>, after: set<T>, k: T)
    requires before - {k} == after - {k}
    ensures |after| == |before| - Bit(k in before) + Bit(k in after)
  {
    assert |before - {k}| == |before| - Bit(k in before);
    assert |after - {k}| == |after| - Bit(k in after);
  }

  lemma MsgExcess(s: System, m: MsgId, g: Msg, a: ActorId)
    requires a in s.actors
    ensures Excess(SetMsg(s, m, g), a)
         == Excess(s, a) - Share(g, a) + (if m in s.msgs then Share(s.msgs[m], a) else 0)
  {
    var msgs := s.msgs[m := g];
    SetSwap(Senders(s.msgs, a), Senders(msgs, a), m);
    SetSwap(Closures(s.msgs, a), Closures(msgs, a), m);
  }

  lemma FeederExcess(s: System, f: FeederId, d: Feeder, a: ActorId)
    requires a in s.actors
    ensures Excess(SetFeeder(s, f, d), a)
         == Excess(s, a) - Bit(d.live && d.to == a)
            + (if f in s.feeders then Bit(s.feeders[f].live && s.feeders[f].to == a) else 0)
  {
    SetSwap(LiveFeeders(s.feeders, a), LiveFeeders(s.feeders[f := d], a), f);
  }
}
