/**
 * Envelopes, the futures made from them, and feeders, as the objects the code uses. The ghost parameters of a method
 * name the world of shells and channels, the state it stands for, and the message the object is about; its contract
 * says which step of the runtime it performs.
 */
module Envelopes {
  import opened Types
  import opened ActorSteps
  import opened Runtime
  import opened Ownership
  import opened Invariants
  import opened MessageShapes
  import opened Replies
  import opened Delivery
  import opened Reachability
  import opened Deadlock
  import opened Worlds

  // ---- return paths ----

  /** The state in which a forwarded result is about to be offered as message n. */
  ghost function Carrying(s: System, a: ActorId, n: MsgId): System
    requires HandlerEnabled(s, a, Replied(n)) && s.msgs[s.actors[a].phase.msg].path.Mailbox?
  {
    var m := s.actors[a].phase.msg;
    var g := s.msgs[m];
    var v := s.actors[a].phase.value;
    var s1 := SetMsg(SetActor(s, a, s.actors[a].(phase := LoopTop)), m, g.(stage := Handled(v), child := Some(n)));
    SetMsg(s1, n, NewMsg(g.path.to, g.path.role, Converted(v), Spawned(true), Some(m)))
  }

  lemma CarryingSeen(s: System, a: ActorId, n: MsgId)
    requires HandlerEnabled(s, a, Replied(n)) && s.msgs[s.actors[a].phase.msg].path.Mailbox?
    ensures var t := Carrying(s, a, n); var path := s.msgs[s.actors[a].phase.msg].path;
            && SameShells(s, t) && SameParcels(s, t) && SameCells(s, t)
            && Rooted(t, n) && Exists(s, path.to, path.role)
            && t.msgs[n] == NewMsg(path.to, path.role, Converted(s.actors[a].phase.value), Spawned(true),
                                   Some(s.actors[a].phase.msg))
            && ApplyHandler(s, a, Replied(n)) == Submit(t, n)
  {
    hide Submit;
  }

  lemma CarryingShows(k: Sight, w: World, s: System, a: ActorId, n: MsgId)
    requires Shows(k, w, s) && HandlerEnabled(s, a, Replied(n)) && s.msgs[s.actors[a].phase.msg].path.Mailbox?
    ensures Shows(k, w, Carrying(s, a, n))
  {
    hide Shows, Carrying;
    CarryingSeen(s, a, n);
    SameShows(k, w, s, Carrying(s, a, n));
  }

  lemma AnsweredSeen(s: System, a: ActorId, n: MsgId)
    requires HandlerEnabled(s, a, Replied(n)) && !s.msgs[s.actors[a].phase.msg].path.Mailbox?
    ensures var m := s.actors[a].phase.msg; var t := ApplyHandler(s, a, Replied(n));
            && SameShells(s, t) && SameParcels(s, t)
            && forall k <- s.msgs ::
                 t.msgs[k].cell == if k == m && s.msgs[m].path.Immediate? then Filled(s.actors[a].phase.value)
                                   else s.msgs[k].cell
  {}

  /** What an answer that is not forwarded changes. */
  lemma AnsweredShows(k: Sight, w: World, s: System, a: ActorId, n: MsgId)
    requires Shows(k, w, s) && HandlerEnabled(s, a, Replied(n)) && !s.msgs[s.actors[a].phase.msg].path.Mailbox?
    ensures var m := s.actors[a].phase.msg; var v := s.actors[a].phase.value;
            && (s.msgs[m].path.Discard? ==> Shows(k, w, ApplyHandler(s, a, Replied(n))))
            && (s.msgs[m].path.Immediate? && m in k.cells ==>
                  Shows(k.(cells := k.cells[m := Filled(v)]), w, ApplyHandler(s, a, Replied(n))))
  {
    AnsweredSeen(s, a, n);
    hide AllStand, ApplyHandler;
    SameStands(k.views, w, s, ApplyHandler(s, a, Replied(n)));
  }

  lemma RepliedCurrent(s: System, a: ActorId, n: MsgId)
    requires HandlerEnabled(s, a, Replied(n))
    ensures a in s.actors && s.actors[a].phase.Replying? && s.actors[a].phase.msg in s.msgs
  {}

  /**
   * ReturnPath::send, by the dispatcher of actor a that has just completed a handler: discards the value, fills the
   * caller's reply channel, or offers it once to the recipient as a message of its own.
   */
  method SendReturn(path: Return, v: Value, ghost w: World, ghost s: System, ghost a: ActorId, ghost n: MsgId)
    requires w.Is(s) && HandlerEnabled(s, a, Replied(n))
    requires v == s.actors[a].phase.value && PathIs(path, w, s, s.actors[a].phase.msg)
    modifies if path.ToCaller? then {path.reply} else {}
    modifies if path.ToMailbox? then {path.recipient} + path.recipient.channels.Values else {}
    ensures w.Is(ApplyHandler(s, a, Replied(n)))
  {
    hide AllStand, CellsStand, Submit, HandlerEnabled, ApplyHandler, Rooted;
    RepliedCurrent(s, a, n);
    ghost var before := w.Look();
    match path
    case DiscardIt => AnsweredShows(before, w, s, a, n);
    case ToCaller(reply) =>
      reply.cell := Filled(v);
      AnsweredShows(before, w, s, a, n);
      assert w.Look() == before.(cells := before.cells[s.actors[a].phase.msg := Filled(v)]);
    case ToMailbox(recipient, role) =>
      CarryingSeen(s, a, n);
      CarryingShows(before, w, s, a, n);
      SeenRole(before, w, s, recipient, role);
      var _ := recipient.EnqueueAndDrop(role, Parcel(Converted(v), DiscardIt), w, Carrying(s, a, n), n);
  }

  // ---- Envelopes ----

  /** A send_when_ready task whose future has resolved. */
  datatype Helper = Helper(dest: Shell, role: RoleId, payload: Payload)

  /** The task that runs message m in s. */
  ghost predicate HelperIs(h: Helper, w: World, s: System, m: MsgId) {
    Rooted(s, m) && s.msgs[m].stage.Spawned? && s.msgs[m].path.Discard?
    && h.dest in w.shells && h.dest.actor == s.msgs[m].to && h.role == s.msgs[m].role
    && h.payload == s.msgs[m].payload
  }

  /** send_when_ready takes over one of user code's handles; `payload` is what the future will yield. */
  method SpawnHelper(dest: Shell, role: RoleId, payload: Payload, ghost w: World, ghost s: System, ghost m: MsgId,
                     ghost data: Data)
    returns (h: Helper)
    requires w.Is(s) && dest in w.shells && payload == Arguments(data)
    requires HandleEnabled(s, HandleEvent.SendWhenReady(dest.actor, role, m, data))
    ensures var t := ApplyHandle(s, HandleEvent.SendWhenReady(dest.actor, role, m, data));
            w.Is(t) && HelperIs(h, w, t, m) && t.msgs[m].stage == Spawned(false)
            && h == Helper(dest, role, payload)
  {
    hide Shows;
    h := Helper(dest, role, payload);
    SameShows(w.Look(), w, s, ApplyHandle(s, HandleEvent.SendWhenReady(dest.actor, role, m, data)));
  }

  /** The future of a helper task panics: nothing is sent, and the task's handle goes. */
  method HelperPanics(h: Helper, ghost w: World, ghost s: System, ghost m: MsgId)
    requires w.Is(s) && HelperIs(h, w, s, m) && TaskEnabled(s, HelperDies(m))
    modifies h.dest
    ensures w.Is(ApplyTask(s, HelperDies(m)))
  {
    hide AllStand, CellsStand;
    ghost var before := w.Look();
    h.dest.Release(w);
    RecountShows(before, w.Look(), w, s, ApplyTask(s, HelperDies(m)), h.dest, -1);
  }

  /** The rest of the task of send_when_ready: one send, whose failure nobody hears of. */
  method SendWhenReady(h: Helper, ghost w: World, ghost s: System, ghost m: MsgId)
    requires w.Is(s) && HelperIs(h, w, s, m)
    modifies h.dest, h.dest.channels.Values
    ensures w.Is(ApplyTask(s, HelperSends(m)))
  {
    hide Shows, Submit;
    SeenRole(w.Look(), w, s, h.dest, h.role);
    var _ := h.dest.EnqueueAndDrop(h.role, Parcel(h.payload, DiscardIt), w, s, m);
  }

  class Envelope {
    var val: Option<Payload>
    var dest: Option<Shell>
    const role: RoleId

    /** Not yet unpacked: what every public method may rely on. */
    predicate Valid()
      reads this
    {
      val.Some? && dest.Some?
    }

    /** Holds message m of s, which nothing has been decided about. */
    ghost predicate Is(w: World, s: System, m: MsgId)
      reads this
    {
      Valid() && dest.value in w.shells
      && At(s, m, Held) && s.msgs[m].path.Discard?
      && s.msgs[m].to == dest.value.actor && s.msgs[m].role == role && s.msgs[m].payload == val.value
    }

    /** A shell's method makes it, with a new handle of its own for dest. */
    constructor (val: Payload, dest: Shell, role: RoleId, ghost w: World, ghost s: System, ghost m: MsgId,
                 ghost data: Data)
      requires w.Is(s) && dest in w.shells && val == Arguments(data)
      requires HandleEnabled(s, Call(dest.actor, role, m, data))
      modifies dest
      ensures w.Is(ApplyHandle(s, Call(dest.actor, role, m, data)))
      ensures Is(w, ApplyHandle(s, Call(dest.actor, role, m, data)), m)
    {
      this.val := Some(val);
      this.dest := Some(dest);
      this.role := role;
      new;
      hide AllStand, CellsStand, HandleEnabled, ApplyHandle;
      ghost var before := w.Look();
      dest.Clone(w);
      CallShows(before, w.Look(), w, s, dest, role, m, data);
    }

    /** Both takes succeed on a valid Envelope; afterwards it is forgotten, so it is not dropped as well. */
    method Unpack() returns (payload: Payload, shell: Shell)
      requires Valid()
      modifies this
      ensures !Valid() && val == None && dest == None
      ensures Some(payload) == old(val) && Some(shell) == old(dest)
    {
      payload, shell := val.value, dest.value;
      val, dest := None, None;
    }

    /** The first poll of ignore_return(). */
    method IgnoreReturn(ghost w: World, ghost s: System, ghost m: MsgId) returns (accepted: bool)
      requires w.Is(s) && Is(w, s, m)
      modifies this, dest.value, dest.value.channels.Values
      ensures !Valid() && w.Is(ApplyEnvelope(s, PollSend(m)))
      ensures ApplyEnvelope(s, PollSend(m)).msgs[m].stage == if accepted then Queued else Refused
    {
      hide Shows, Submit, EnvelopeEnabled, ApplyEnvelope;
      PollSendSubmits(s, m);
      var payload, shell := Unpack();
      SeenRole(w.Look(), w, s, shell, role);
      accepted := shell.EnqueueAndDrop(role, Parcel(payload, DiscardIt), w, s, m);
    }

    /** The first poll of forward_to(recipient), which takes over one of user code's handles of the recipient. */
    method ForwardTo(recipient: Shell, to: RoleId, ghost w: World, ghost s: System, ghost m: MsgId)
      returns (accepted: bool)
      requires w.Is(s) && Reachable(s) && Is(w, s, m) && recipient in w.shells
      requires EnvelopeEnabled(s, EnvelopeEvent.ForwardTo(m, recipient.actor, to))
      modifies this, dest.value, dest.value.channels.Values, recipient
      ensures !Valid() && Runtime.Valid(s, ForwardEvents(m, recipient.actor, to))
      ensures var t := Final(s, ForwardEvents(m, recipient.actor, to));
              w.Is(t) && m in t.msgs && t.msgs[m].stage == if accepted then Queued else Refused
    {
      hide Shows, Submit, Reachable, EnvelopeEnabled, ApplyEnvelope, Rooted, Runtime.Valid, Final;
      ghost var s1 := ApplyEnvelope(s, EnvelopeEvent.ForwardTo(m, recipient.actor, to));
      ForwardShows(w.Look(), w, s, m, recipient.actor, to);
      var payload, shell := Unpack();
      SeenRole(w.Look(), w, s1, shell, role);
      accepted := shell.EnqueueAndDrop(role, Parcel(payload, ToMailbox(recipient, to)), w, s1, m);
    }

    /**
     * `.await`: the message is unpacked at once and sent at the first poll. No count or mailbox changes yet; the
     * message gets a reply channel of its own.
     */
    method IntoFuture(ghost w: World, ghost s: System, ghost m: MsgId) returns (c: ReturnCaster, ghost w2: World)
      requires w.Is(s) && Reachable(s) && Is(w, s, m)
      modifies this
      ensures !Valid() && fresh(c) && fresh(c.reply) && m !in w.replies
      ensures w2 == World(w.shells, w.replies[m := c.reply])
      ensures w2.Is(ApplyEnvelope(s, EnvelopeEvent.IntoFuture(m)))
      ensures c.Is(w2, ApplyEnvelope(s, EnvelopeEvent.IntoFuture(m)), m) && c.state == Unsent && c.sender == old(dest)
    {
      hide AllStand, CellsStand, Reachable, EnvelopeEnabled, ApplyEnvelope;
      ghost var before := w.Look();
      var payload, shell := Unpack();
      c := new ReturnCaster(payload, shell, role);
      w2 := World(w.shells, w.replies[m := c.reply]);
      FutureShows(before, w, w2, s, m, c.reply);
      assert w2.Look() == Sight(before.views, before.cells[m := Open]);
    }

    /** Drop: the message goes to a helper task, which owns the handle from now on. */
    method Drop(ghost w: World, ghost s: System, ghost m: MsgId) returns (task: Helper)
      requires w.Is(s) && Reachable(s) && Is(w, s, m)
      modifies this
      ensures !Valid() && w.Is(ApplyEnvelope(s, DropEnvelope(m)))
      ensures HelperIs(task, w, ApplyEnvelope(s, DropEnvelope(m)), m)
    {
      hide Shows, Reachable;
      task := Helper(dest.value, role, val.value);
      val, dest := None, None;
      UnsentShows(w.Look(), w, s, ApplyEnvelope(s, DropEnvelope(m)), m);
    }
  }

  lemma PollSendSubmits(s: System, m: MsgId)
    requires EnvelopeEnabled(s, PollSend(m))
    ensures Rooted(s, m) && ApplyEnvelope(s, PollSend(m)) == Submit(s, m) && m in Submit(s, m).msgs
    ensures Submit(s, m).msgs[m].stage == if Accepting(s.actors[s.msgs[m].to]) then Queued else Refused
  {
    SubmitMoves(s, m);
  }

  lemma ForwardShows(k: Sight, w: World, s: System, m: MsgId, b: ActorId, br: RoleId)
    requires Shows(k, w, s) && Reachable(s) && EnvelopeEnabled(s, EnvelopeEvent.ForwardTo(m, b, br))
    ensures var t := ApplyEnvelope(s, EnvelopeEvent.ForwardTo(m, b, br));
            && Shows(k, w, t) && EnvelopeEnabled(t, PollSend(m)) && Rooted(t, m) && m in t.msgs && m in s.msgs
            && t.msgs[m] == s.msgs[m].(path := Mailbox(b, br))
            && Exists(t, t.msgs[m].to, t.msgs[m].role)
            && Runtime.Valid(s, ForwardEvents(m, b, br)) && Final(s, ForwardEvents(m, b, br)) == Submit(t, m)
            && m in Submit(t, m).msgs
            && Submit(t, m).msgs[m].stage == if Accepting(t.actors[t.msgs[m].to]) then Queued else Refused
  {
    hide Reachable, Shows, Submit;
    var t := ApplyEnvelope(s, EnvelopeEvent.ForwardTo(m, b, br));
    UnsentShows(k, w, s, t, m);
    PollSendSubmits(t, m);
    TwoEvents(s, Event.Envelope(EnvelopeEvent.ForwardTo(m, b, br)), Event.Envelope(PollSend(m)));
  }

  lemma TwoEvents(s: System, e: Event, f: Event)
    requires Enabled(s, e) && Enabled(Apply(s, e), f)
    ensures Runtime.Valid(s, [e, f]) && Final(s, [e, f]) == Apply(Apply(s, e), f)
  {
    hide Enabled, Apply, Runtime.Valid, Final;
    RunOne(s, e);
    RunAppend(s, [e], f);
    assert [e] + [f] == [e, f];
  }

  /** forward_to makes a future that owns the closure; its first poll sends. */
  function ForwardEvents(m: MsgId, b: ActorId, br: RoleId): seq<Event> {
    [Event.Envelope(EnvelopeEvent.ForwardTo(m, b, br)), Event.Envelope(PollSend(m))]
  }

  lemma FutureShows(k: Sight, w: World, w2: World, s: System, m: MsgId, reply: OneShot)
    requires Shows(k, w, s) && k.cells.Keys == w.replies.Keys && Reachable(s)
    requires At(s, m, Held) && s.msgs[m].path.Discard? && w2 == World(w.shells, w.replies[m := reply])
    ensures m !in w.replies && EnvelopeEnabled(s, EnvelopeEvent.IntoFuture(m))
    ensures var t := ApplyEnvelope(s, EnvelopeEvent.IntoFuture(m));
            && Shows(Sight(k.views, k.cells[m := Open]), w2, t)
            && Rooted(t, m)
            && t.msgs[m] == s.msgs[m].(stage := Casting, path := Immediate, caster := Unsent, cell := Open)
  {
    hide Reachable, AllStand;
    var t := ApplyEnvelope(s, EnvelopeEvent.IntoFuture(m));
    WiderShows(k, w, w2, s);
    UnsentShows(k, w2, s, t, m);
  }

  lemma CallShows(before: Sight, after: Sight, w: World, s: System, dest: Shell, r: RoleId, m: MsgId, data: Data)
    requires Shows(before, w, s) && w.Separate() && before.views.Keys == after.views.Keys == w.shells
    requires dest in w.shells && HandleEnabled(s, Call(dest.actor, r, m, data)) && after.cells == before.cells
    requires forall sh <- w.shells ::
               after.views[sh] == before.views[sh].(strong := before.views[sh].strong + Bit(sh == dest))
    ensures var t := ApplyHandle(s, Call(dest.actor, r, m, data));
            Shows(after, w, t)
            && At(t, m, Held) && t.msgs[m] == NewMsg(dest.actor, r, Arguments(data), Held, None)
  {
    hide AllStand, CellsStand;
    RecountShows(before, after, w, s, ApplyHandle(s, Call(dest.actor, r, m, data)), dest, 1);
  }

  // ---- awaiting ----

  /** What a poll makes of a caster, given its reply channel and whether the destination accepts messages. */
  function CasterAfterPoll(caster: Caster, cell: Cell, open: bool): Caster {
    if caster.Unsent? && !open then Resolved(SendingError)
    else ReadCell(cell, Waiting)
  }

  /** The object's poll is the runtime's: same caster afterwards, same answer. */
  lemma PollRefines(s: System, m: MsgId)
    requires Reachable(s) && EnvelopeEnabled(s, PollCaster(m))
    ensures var g := s.msgs[m];
            && AfterPoll(s, m).caster == CasterAfterPoll(g.caster, g.cell, Accepting(s.actors[g.to]))
            && AfterPoll(s, m).cell == g.cell && (g.caster.Unsent? ==> g.cell == Open)
  {
    MsgAt(s, m);
  }

  class ReturnCaster {
    var sender: Option<Shell>
    const role: RoleId
    const payload: Payload
    const reply: OneShot
    ghost var state: Caster

    ghost predicate Valid()
      reads this
    {
      && !state.NoCaster? && (state.Unsent? ==> sender.Some?)
      && (sender.Some? ==> state.Unsent? || state == Resolved(SendingError))
    }

    /** Awaits message m of s, on that message's own reply channel. */
    ghost predicate Is(w: World, s: System, m: MsgId)
      reads this
    {
      && Valid() && Rooted(s, m) && s.msgs[m].path.Immediate? && state == s.msgs[m].caster
      && m in w.replies && w.replies[m] == reply
      && (state.Unsent? ==> sender.value in w.shells && sender.value.actor == s.msgs[m].to
                            && role == s.msgs[m].role && payload == s.msgs[m].payload)
    }

    constructor (payload: Payload, shell: Shell, role: RoleId)
      ensures fresh(reply) && reply.cell == Open && Valid() && state == Unsent
      ensures sender == Some(shell) && this.role == role && this.payload == payload
    {
      this.payload, this.role := payload, role;
      reply := new OneShot();
      sender := Some(shell);
      state := Unsent;
    }

    /** The first poll of the send future. */
    method SendOff(ghost w: World, ghost s: System, ghost m: MsgId) returns (accepted: bool)
      requires w.Is(s) && Reachable(s) && Is(w, s, m) && state.Unsent?
      modifies sender.value, sender.value.channels.Values
      ensures w.Is(ApplyEnvelope(s, PollCaster(m)))
      ensures accepted == Accepting(s.actors[s.msgs[m].to])
    {
      hide Shows, Submit, Reachable, ApplyEnvelope, EnvelopeEnabled, AfterPoll;
      PollShows(w.Look(), w, s, m);
      SeenRole(w.Look(), w, s, sender.value, role);
      accepted := sender.value.EnqueueAndDrop(role, Parcel(payload, ToCaller(reply)), w, s, m);
    }

    /** One poll: sends if that has not been done, then reads the reply channel. None is Poll::Pending. */
    method Poll(ghost w: World, ghost s: System, ghost m: MsgId) returns (r: Option<Reply>)
      requires w.Is(s) && Reachable(s) && Is(w, s, m) && (state.Unsent? || state.Waiting?)
      modifies this
      modifies if sender.Some? then {sender.value} + sender.value.channels.Values else {}
      ensures w.Is(ApplyEnvelope(s, PollCaster(m))) && Is(w, ApplyEnvelope(s, PollCaster(m)), m)
      ensures r == Polled(AfterPoll(s, m))
      ensures reply.cell == old(reply.cell)
    {
      hide Reachable, EnvelopeEnabled, ApplyEnvelope, AfterPoll, World.Is, Is, Rooted;
      PollFacts(this, w, s, m);
      if sender.Some? {
        var accepted := SendOff(w, s, m);
        if !accepted {
          state := Resolved(SendingError);
          PolledIs(this, w, s, m);
          return Some(SendingError);
        }
        sender := None;
        state := Waiting;
      }
      r := ReadReply();
      PolledIs(this, w, s, m);
    }

    /** Drop: before the first poll the send future goes, with the parcel and its handle; afterwards nothing happens. */
    method Drop(ghost w: World, ghost s: System, ghost m: MsgId)
      requires w.Is(s) && Reachable(s) && Is(w, s, m) && EnvelopeEnabled(s, DropCaster(m))
      modifies this
      modifies if sender.Some? then {sender.value} else {}
      ensures w.Is(ApplyEnvelope(s, DropCaster(m)))
      ensures state == Dropped && sender == None
    {
      hide Shows, Reachable, EnvelopeEnabled, ApplyEnvelope, Rooted, Recounted, SameShells, SameParcels, SameCells;
      ghost var before := w.Look();
      DropEnabled(s, m);
      DroppedSeen(s, m);
      if sender.Some? {
        sender.value.Release(w);
        RecountShows(before, w.Look(), w, s, ApplyEnvelope(s, DropCaster(m)), sender.value, -1);
      } else {
        SameShows(before, w, s, ApplyEnvelope(s, DropCaster(m)));
      }
      sender := None;
      state := Dropped;
    }

    /** The poll of the receiving half. */
    method ReadReply() returns (r: Option<Reply>)
      requires Valid() && state.Waiting? && sender.None?
      modifies this
      ensures Valid() && sender == old(sender) && state == ReadCell(reply.cell, Waiting)
      ensures r == if state.Resolved? then Some(state.reply) else None
    {
      match reply.cell {
        case Filled(v) => r := Some(Ok(v));
        case Broken => r := Some(Hangup);
        case _ => r := None;
      }
      if r.Some? { state := Resolved(r.value); }
    }
  }

  lemma DropEnabled(s: System, m: MsgId)
    requires EnvelopeEnabled(s, DropCaster(m))
    ensures m in s.msgs && (s.msgs[m].caster.Unsent? || s.msgs[m].caster.Waiting?)
  {}

  lemma DroppedSeen(s: System, m: MsgId)
    requires EnvelopeEnabled(s, DropCaster(m))
    ensures var t := ApplyEnvelope(s, DropCaster(m));
            if s.msgs[m].caster.Unsent? then Recounted(s, t, s.msgs[m].to, -1)
            else SameShells(s, t) && SameParcels(s, t) && SameCells(s, t)
  {}

  /** What a caster knows before a poll. */
  lemma PollFacts(c: ReturnCaster, w: World, s: System, m: MsgId)
    requires w.Is(s) && Reachable(s) && c.Is(w, s, m) && (c.state.Unsent? || c.state.Waiting?)
    ensures EnvelopeEnabled(s, PollCaster(m)) && c.Valid() && m in s.msgs && s.msgs[m].to in s.actors
    ensures AfterPoll(s, m).caster
         == CasterAfterPoll(c.state, c.reply.cell, Accepting(s.actors[s.msgs[m].to]))
    ensures (c.sender.Some? <==> c.state.Unsent?) && (c.state.Unsent? ==> c.reply.cell == Open)
    ensures m in w.replies && w.replies[m] == c.reply && PathStays(s, m)
    ensures c.state.Waiting? ==> w.Is(ApplyEnvelope(s, PollCaster(m)))
    ensures c.state.Unsent? ==> c.sender.value in w.shells
  {
    hide Reachable, AllStand, Submit;
    PollShows(w.Look(), w, s, m);
    PollRefines(s, m);
    assert w.Look().cells[m] == c.reply.cell;
  }

  ghost predicate PathStays(s: System, m: MsgId)
    requires EnvelopeEnabled(s, PollCaster(m))
  {
    var t := ApplyEnvelope(s, PollCaster(m));
    Rooted(t, m) && t.msgs[m].path.Immediate? && t.msgs[m] == AfterPoll(s, m) && !t.msgs[m].caster.Unsent?
  }

  lemma PolledIs(c: ReturnCaster, w: World, s: System, m: MsgId)
    requires EnvelopeEnabled(s, PollCaster(m)) && PathStays(s, m)
    requires c.Valid() && c.state == AfterPoll(s, m).caster && m in w.replies && w.replies[m] == c.reply
    ensures c.Is(w, ApplyEnvelope(s, PollCaster(m)), m)
  {}

  lemma PollShows(k: Sight, w: World, s: System, m: MsgId)
    requires Shows(k, w, s) && Reachable(s) && Rooted(s, m)
    requires s.msgs[m].caster.Unsent? || s.msgs[m].caster.Waiting?
    ensures m in s.msgs && EnvelopeEnabled(s, PollCaster(m)) && Exists(s, s.msgs[m].to, s.msgs[m].role)
    ensures var t := ApplyEnvelope(s, PollCaster(m));
            && (if s.msgs[m].caster.Unsent? then t == Submit(s, m) else Shows(k, w, t))
            && Rooted(t, m) && m in t.msgs && t.msgs[m] == AfterPoll(s, m)
            && t.msgs[m].path == s.msgs[m].path && !t.msgs[m].caster.Unsent?
  {
    hide Reachable, Shows;
    MsgAt(s, m);
    PollRefines(s, m);
    if s.msgs[m].caster.Waiting? { SameShows(k, w, s, ApplyEnvelope(s, PollCaster(m))); }
  }

  lemma EnvelopeKeepsCaster(s: System, v: EnvelopeEvent, m: MsgId)
    requires EnvelopeEnabled(s, v) && m in s.msgs && MsgOk(s.msgs[m]) && s.msgs[m].caster.Waiting?
    requires v != PollCaster(m) && v != DropCaster(m)
    ensures m in ApplyEnvelope(s, v).msgs && ApplyEnvelope(s, v).msgs[m].caster == s.msgs[m].caster
  {}

  lemma TaskKeepsCaster(s: System, t: TaskEvent, m: MsgId)
    requires TaskEnabled(s, t) && m in s.msgs && MsgOk(s.msgs[m]) && s.msgs[m].caster.Waiting?
    ensures m in ApplyTask(s, t).msgs && ApplyTask(s, t).msgs[m].caster == s.msgs[m].caster
  {}

  /** Nothing but polling or dropping a caster changes it once its message is sent. */
  lemma StepKeepsCaster(s: System, e: Event, m: MsgId)
    requires Reachable(s) && Enabled(s, e) && m in s.msgs && s.msgs[m].caster.Waiting?
    requires e != Event.Envelope(PollCaster(m)) && e != Event.Envelope(DropCaster(m))
    ensures var t := Apply(s, e);
            Rooted(t, m) && t.msgs[m].caster == s.msgs[m].caster && t.msgs[m].path == s.msgs[m].path
  {
    hide Reachable, ApplyHandle, ApplyEnvelope, ApplyTask, ApplyHandler, ApplyLoop, Rooted;
    MsgAt(s, m);
    StepForward(s, e, m);
    StepReachable(s, e);
    MsgAt(Apply(s, e), m);
    match e
    case Tick =>
    case Handle(u) => HandleKeepsWaiting(s, u, m);
    case Envelope(v) => EnvelopeKeepsCaster(s, v, m);
    case Task(t) => TaskKeepsCaster(s, t, m);
    case Handler(a, h) => HandlerKeepsWaiting(s, a, h, m);
    case Loop(a, l) => LoopKeepsWaiting(s, a, l, m);
  }

  /**
   * A caster that was polled once keeps awaiting its message, whatever the rest of the system does meanwhile and
   * whatever is added to the world: its next poll is that of the runtime again, on the message's reply channel.
   */
  lemma {:induction false} StillAwaits(c: ReturnCaster, w: World, w2: World, s: System, es: seq<Event>, m: MsgId)
    requires Reachable(s) && Runtime.Valid(s, es) && c.Is(w, s, m) && c.state.Waiting? && w.Within(w2)
    requires forall e <- es :: e != Event.Envelope(PollCaster(m)) && e != Event.Envelope(DropCaster(m))
    ensures c.Is(w2, Final(s, es), m)
    decreases |es|
  {
    hide Reachable, Apply, Enabled;
    if es != [] {
      assert es[0] in es && forall e <- es[1..] :: e in es;
      StepKeepsCaster(s, es[0], m);
      StepReachable(s, es[0]);
      StillAwaits(c, w, w2, Apply(s, es[0]), es[1..], m);
    }
  }

  // ---- the whole way of a call that is awaited ----

  /** Message m is in an Envelope, and its actor waits in select! with an empty mailbox for it. */
  ghost predicate Ready(s: System, m: MsgId, n: MsgId) {
    && At(s, m, Held) && s.msgs[m].path.Discard? && n !in s.msgs
    && var x := s.actors[s.msgs[m].to];
    x.phase.Select? && s.msgs[m].role in x.phase.enabled && x.awaiting.None? && x.lanes[s.msgs[m].role].queue == []
  }

  /** The states the call goes through. */
  ghost predicate Trip(s: System, m: MsgId, n: MsgId, st: UserState, v: Value, t: seq<System>) {
    && |t| == 5 && Rooted(s, m)
    && var a, r := s.msgs[m].to, s.msgs[m].role;
    && EnvelopeEnabled(s, EnvelopeEvent.IntoFuture(m)) && t[0] == ApplyEnvelope(s, EnvelopeEvent.IntoFuture(m))
    && EnvelopeEnabled(t[0], PollCaster(m)) && t[1] == ApplyEnvelope(t[0], PollCaster(m))
    && LoopEnabled(t[1], a, Received(r)) && t[2] == ApplyLoop(t[1], a, Received(r))
    && HandlerEnabled(t[2], a, Returned(st, v)) && t[3] == ApplyHandler(t[2], a, Returned(st, v))
    && HandlerEnabled(t[3], a, Replied(n)) && t[4] == ApplyHandler(t[3], a, Replied(n))
  }

  /** What is left of the message at each point. */
  ghost predicate TripFacts(s: System, m: MsgId, v: Value, t: seq<System>) {
    && |t| == 5 && m in s.msgs
    && var a, r := s.msgs[m].to, s.msgs[m].role;
    && Exists(t[1], a, r) && t[1].actors[a].lanes[r].queue == [m] && a in t[0].actors && Accepting(t[0].actors[a])
    && (forall i :: 0 <= i < 5 ==> Rooted(t[i], m) && m in t[i].msgs && t[i].msgs[m].path == Immediate)
    && a in t[3].actors && t[3].actors[a].phase == Replying(m, v)
    && t[0].msgs[m].caster == Unsent && t[1].msgs[m].caster == Waiting
    && t[4].msgs[m].caster == Waiting && t[4].msgs[m].cell == Filled(v)
  }

  lemma TripSends(s: System, m: MsgId, n: MsgId) returns (t0: System, t1: System)
    requires Ready(s, m, n)
    ensures EnvelopeEnabled(s, EnvelopeEvent.IntoFuture(m)) && t0 == ApplyEnvelope(s, EnvelopeEvent.IntoFuture(m))
    ensures EnvelopeEnabled(t0, PollCaster(m)) && t1 == ApplyEnvelope(t0, PollCaster(m))
    ensures t0.msgs[m].path == Immediate && t0.msgs[m].caster == Unsent && s.msgs[m].to in t0.actors
    ensures Rooted(t0, m) && Accepting(t0.actors[s.msgs[m].to])
    ensures Rooted(t1, m) && n !in t1.msgs && t1.msgs[m].to == s.msgs[m].to && t1.msgs[m].role == s.msgs[m].role
    ensures t1.msgs[m].path == Immediate && t1.msgs[m].caster == Waiting
    ensures var x := t1.actors[s.msgs[m].to];
            x.phase.Select? && s.msgs[m].role in x.phase.enabled && x.awaiting.None?
            && x.lanes[s.msgs[m].role].queue == [m]
  {
    t0 := ApplyEnvelope(s, EnvelopeEvent.IntoFuture(m));
    t1 := ApplyEnvelope(t0, PollCaster(m));
  }

  lemma TripHandles(s: System, a: ActorId, r: RoleId, m: MsgId, n: MsgId, st: UserState, v: Value)
    returns (t2: System, t3: System, t4: System)
    requires Rooted(s, m) && n !in s.msgs && s.msgs[m].path == Immediate && s.msgs[m].caster == Waiting
    requires Exists(s, a, r)
    requires var x := s.actors[a];
             x.phase.Select? && r in x.phase.enabled && x.awaiting.None? && x.lanes[r].queue == [m]
    ensures LoopEnabled(s, a, Received(r)) && t2 == ApplyLoop(s, a, Received(r))
    ensures HandlerEnabled(t2, a, Returned(st, v)) && t3 == ApplyHandler(t2, a, Returned(st, v))
    ensures HandlerEnabled(t3, a, Replied(n)) && t4 == ApplyHandler(t3, a, Replied(n))
    ensures Rooted(t2, m) && t2.msgs[m].path == Immediate && Rooted(t3, m) && t3.msgs[m].path == Immediate
    ensures a in t3.actors && t3.actors[a].phase == Replying(m, v)
    ensures Rooted(t4, m) && t4.msgs[m].path == Immediate && t4.msgs[m].caster == Waiting
    ensures t4.msgs[m].cell == Filled(v)
  {
    t2 := ApplyLoop(s, a, Received(r));
    t3 := ApplyHandler(t2, a, Returned(st, v));
    t4 := ApplyHandler(t3, a, Replied(n));
  }

  lemma TripPossible(s: System, m: MsgId, n: MsgId, st: UserState, v: Value) returns (t: seq<System>)
    requires Ready(s, m, n)
    ensures Trip(s, m, n, st, v, t) && TripFacts(s, m, v, t) && |t| == 5
  {
    hide EnvelopeEnabled, ApplyEnvelope, LoopEnabled, ApplyLoop, HandlerEnabled, ApplyHandler;
    var t0, t1 := TripSends(s, m, n);
    var t2, t3, t4 := TripHandles(t1, s.msgs[m].to, s.msgs[m].role, m, n, st, v);
    t := [t0, t1, t2, t3, t4];
  }

  lemma TripReachable(s: System, m: MsgId, n: MsgId, st: UserState, v: Value, t: seq<System>)
    requires Reachable(s) && Trip(s, m, n, st, v, t)
    ensures forall i :: 0 <= i < 5 ==> Reachable(t[i])
  {
    hide Reachable, EnvelopeEnabled, ApplyEnvelope, LoopEnabled, ApplyLoop, HandlerEnabled, ApplyHandler;
    var a, r := s.msgs[m].to, s.msgs[m].role;
    StepReachable(s, Event.Envelope(EnvelopeEvent.IntoFuture(m)));
    StepReachable(t[0], Event.Envelope(PollCaster(m)));
    StepReachable(t[1], Loop(a, Received(r)));
    StepReachable(t[2], Handler(a, Returned(st, v)));
    StepReachable(t[3], Handler(a, Replied(n)));
  }

  /** The caller's side: it awaits the Envelope, and its first poll sends. */
  method AwaitAndPoll(e: Envelope, ghost w: World, ghost s: System, ghost m: MsgId, ghost n: MsgId,
                      ghost t: seq<System>, ghost st: UserState, ghost v: Value)
    returns (c: ReturnCaster, first: Option<Reply>, ghost w2: World)
    requires w.Is(s) && Reachable(s) && e.Is(w, s, m) && Trip(s, m, n, st, v, t) && TripFacts(s, m, v, t)
    modifies e, e.dest.value, e.dest.value.channels.Values
    ensures fresh(c) && fresh(c.reply) && w2 == World(w.shells, w.replies[m := c.reply])
    ensures first == None && w2.Is(t[1]) && c.Is(w2, t[1], m) && c.sender == None
  {
    hide Reachable, Shows, EnvelopeEnabled, LoopEnabled, ApplyLoop, HandlerEnabled, ApplyHandler;
    hide AfterPoll, World.Separate, Rooted, ApplyEnvelope;
    TripReachable(s, m, n, st, v, t);
    c, w2 := e.IntoFuture(w, s, m);
    assert AfterPoll(t[0], m) == t[1].msgs[m] by { PolledAt(t[0], m); }
    first := c.Poll(w2, t[0], m);
  }

  lemma PolledAt(s: System, m: MsgId)
    requires EnvelopeEnabled(s, PollCaster(m)) && m in ApplyEnvelope(s, PollCaster(m)).msgs
    ensures AfterPoll(s, m) == ApplyEnvelope(s, PollCaster(m)).msgs[m]
  {}

  /** The actor's side: its loop takes the parcel, the handler returns v, and the dispatcher sends it on. */
  method ServeOne(channel: Channel, shell: Shell, v: Value, ghost w: World, ghost s: System, ghost m: MsgId,
                  ghost n: MsgId, ghost t: seq<System>, ghost st: UserState)
    requires Trip(s, m, n, st, v, t) && TripFacts(s, m, v, t) && w.Is(t[1]) && m in w.replies
    requires shell in w.shells && channel.actor == shell.actor == s.msgs[m].to && channel.role == s.msgs[m].role
    requires channel.role in shell.channels && shell.channels[channel.role] == channel
    modifies channel, w.replies[m]
    ensures w.Is(t[4])
  {
    hide Shows, EnvelopeEnabled, ApplyEnvelope, LoopEnabled, ApplyLoop, HandlerEnabled, ApplyHandler;
    hide World.Separate, Rooted;
    var p := channel.Receive(w, t[1], shell);
    UnseenStep(w, t[2], Handler(shell.actor, Returned(st, v)));
    SendReturn(p.path, v, w, t[3], shell.actor, n);
  }

  /**
   * The whole way: a call's Envelope is awaited, its parcel sent, taken out by the loop of the actor, and handled with
   * result v; the dispatcher sends v along the path that came with the parcel, and the caller's next poll yields it.
   */
  method AwaitedCall(e: Envelope, shell: Shell, v: Value, ghost w: World, ghost s: System, ghost m: MsgId,
                     ghost n: MsgId, ghost st: UserState)
    returns (first: Option<Reply>, second: Option<Reply>, ghost w2: World, ghost t: seq<System>)
    requires w.Is(s) && Reachable(s) && e.Is(w, s, m) && e.dest == Some(shell) && Ready(s, m, n)
    requires e.role in shell.channels
    modifies e, shell, shell.channels.Values
    ensures first == None && second == Some(Ok(v))
    ensures Trip(s, m, n, st, v, t) && EnvelopeEnabled(t[4], PollCaster(m))
    ensures w2.Is(ApplyEnvelope(t[4], PollCaster(m)))
  {
    hide Reachable, EnvelopeEnabled, ApplyEnvelope, LoopEnabled, ApplyLoop, HandlerEnabled, ApplyHandler;
    hide World.Is, ReturnCaster.Is, Envelope.Is, Ready, Rooted, Trip, TripFacts, AfterPoll;
    var channel := shell.channels[e.role];
    Addressed(e, shell, w, s, m);
    t := TripPossible(s, m, n, st, v);
    TripReachable(s, m, n, st, v, t);
    var c;
    c, first, w2 := AwaitAndPoll(e, w, s, m, n, t, st, v);
    ServeOne(channel, shell, v, w2, s, m, n, t, st);
    TripEnds(c, w2, s, m, v, t);
    second := c.Poll(w2, t[4], m);
  }

  lemma StillIs(c: ReturnCaster, w: World, s: System, t: System, m: MsgId)
    requires c.Is(w, s, m) && Rooted(t, m) && t.msgs[m].path == Immediate
    requires m in s.msgs && s.msgs[m].caster == Waiting == t.msgs[m].caster
    ensures c.Is(w, t, m) && c.state.Waiting?
  {}

  lemma Addressed(e: Envelope, shell: Shell, w: World, s: System, m: MsgId)
    requires w.Is(s) && e.Is(w, s, m) && e.dest == Some(shell) && e.role in shell.channels
    ensures m in s.msgs && shell in w.shells
    ensures var c := shell.channels[e.role];
            c.actor == shell.actor == s.msgs[m].to && c.role == e.role == s.msgs[m].role
  {}

  lemma TripEnds(c: ReturnCaster, w: World, s: System, m: MsgId, v: Value, t: seq<System>)
    requires TripFacts(s, m, v, t) && c.Is(w, t[1], m)
    ensures EnvelopeEnabled(t[4], PollCaster(m)) && Polled(AfterPoll(t[4], m)) == Some(Ok(v))
    ensures c.Is(w, t[4], m) && c.state.Waiting?
  {}

  // ---- streams ----

  /** The parcels of a stream's items. */
  function Parcels(stream: seq<Data>): seq<Parcel> {
    seq(|stream|, i requires 0 <= i < |stream| => Parcel(Arguments(stream[i]), DiscardIt))
  }

  /** The task of feeder f in s: live, with a handle of its own of the shell's actor. */
  ghost predicate Feeds(shell: Shell, role: RoleId, w: World, s: System, f: FeederId) {
    && shell in w.shells && role in shell.channels && Exists(s, shell.actor, role)
    && f in s.feeders && s.feeders[f].live && s.feeders[f].to == shell.actor && s.feeders[f].role == role
  }

  /** The runtime's events of a feeder that has got n items into the mailbox. */
  function ItemEvents(f: FeederId, ids: seq<MsgId>, stream: seq<Data>, n: nat): seq<Event>
    requires n <= |stream| <= |ids|
  {
    seq(n, i requires 0 <= i < n => Task(FeedItem(f, ids[i], stream[i])))
  }

  /** All its events: the receivers may close before item `closes`, and the item refused is the last. */
  function FeedEvents(f: FeederId, a: ActorId, ids: seq<MsgId>, stream: seq<Data>, open: bool, closes: nat): seq<Event>
    requires |stream| <= |ids|
  {
    if stream == [] then [Task(FeedEnds(f))]
    else if !open then ItemEvents(f, ids, stream, 1)
    else if closes >= |stream| then ItemEvents(f, ids, stream, |stream|) + [Task(FeedEnds(f))]
    else ItemEvents(f, ids, stream, closes) + [Loop(a, HookReturned)] + [Task(FeedItem(f, ids[closes], stream[closes]))]
  }

  /** feed_to takes over one of user code's handles. */
  method BeginFeed(shell: Shell, role: RoleId, ghost w: World, ghost s: System, ghost f: FeederId)
    requires w.Is(s) && shell in w.shells && role in shell.channels
    requires HandleEnabled(s, HandleEvent.FeedTo(f, shell.actor, role))
    ensures var t := ApplyHandle(s, HandleEvent.FeedTo(f, shell.actor, role)); w.Is(t) && Feeds(shell, role, w, t, f)
  {
    hide Shows;
    SameShows(w.Look(), w, s, ApplyHandle(s, HandleEvent.FeedTo(f, shell.actor, role)));
  }

  /** What one turn of a feeder does to an actor, as the objects can tell. */
  ghost predicate FedActor(x: Actor, y: Actor, here: bool, role: RoleId, m: MsgId, open: bool) {
    && y.strong == x.strong - Bit(here && !open) && y.phase == x.phase && y.lanes.Keys == x.lanes.Keys
    && forall r <- x.lanes :: y.lanes[r].queue == x.lanes[r].queue + if open && here && r == role then [m] else []
  }

  lemma FeedActors(s: System, f: FeederId, m: MsgId, p: Payload, b: ActorId)
    requires f in s.feeders && m !in s.msgs && Exists(s, s.feeders[f].to, s.feeders[f].role) && b in s.actors
    ensures var d := s.feeders[f]; var t := Feed(s, f, m, p);
            b in t.actors
            && FedActor(s.actors[b], t.actors[b], b == d.to, d.role, m, Accepting(s.actors[d.to]))
  {
    hide Submit;
    var d := s.feeders[f];
    var s1 := Count(SetMsg(s, m, NewMsg(d.to, d.role, p, Spawned(true), None)), d.to, 1);
    SubmitFeeders(s1, m);
    SubmitSeen(s1, m, b);
    SubmitPhase(s1, m, b);
  }

  lemma FeedSeen(s: System, f: FeederId, m: MsgId, p: Payload)
    requires f in s.feeders && s.feeders[f].live && m !in s.msgs && Exists(s, s.feeders[f].to, s.feeders[f].role)
    ensures var d := s.feeders[f]; var open := Accepting(s.actors[d.to]); var t := Feed(s, f, m, p);
            && SameParcels(s, t) && SameCells(s, t) && t.actors.Keys == s.actors.Keys
            && m in t.msgs && t.msgs[m].payload == p && t.msgs[m].path == Discard && t.msgs.Keys == s.msgs.Keys + {m}
            && f in t.feeders && t.feeders[f].live == open && t.feeders[f].to == d.to && t.feeders[f].role == d.role
            && forall b <- s.actors :: FedActor(s.actors[b], t.actors[b], b == d.to, d.role, m, open)
  {
    hide Submit, FedActor;
    var d := s.feeders[f];
    var s1 := Count(SetMsg(s, m, NewMsg(d.to, d.role, p, Spawned(true), None)), d.to, 1);
    SubmitMoves(s1, m);
    SubmitFeeders(s1, m);
    forall b | b in s.actors
      ensures FedActor(s.actors[b], Feed(s, f, m, p).actors[b], b == d.to, d.role, m, Accepting(s.actors[d.to]))
    {
      FeedActors(s, f, m, p, b);
    }
  }

  lemma SubmitFeeders(s: System, m: MsgId)
    requires Rooted(s, m)
    ensures Submit(s, m).feeders == s.feeders && Submit(s, m).actors.Keys == s.actors.Keys
    ensures SameParcels(s, Submit(s, m)) && SameCells(s, Submit(s, m))
  {}

  lemma SubmitPhase(s: System, m: MsgId, b: ActorId)
    requires Rooted(s, m) && b in s.actors
    ensures b in Submit(s, m).actors && Submit(s, m).actors[b].phase == s.actors[b].phase
  {}

  /** A shell after one turn of a feeder. */
  function Fed(v: View, here: bool, role: RoleId, p: Parcel, accepted: bool): View {
    View(v.strong - Bit(here && !accepted), Put(v.mail, role, p, accepted && here))
  }

  lemma FedStands(v: View, w: World, s: System, b: ActorId, f: FeederId, m: MsgId, data: Data)
    requires Stands(v, w, s, b) && f in s.feeders && s.feeders[f].live && m !in s.msgs
    requires Exists(s, s.feeders[f].to, s.feeders[f].role)
    ensures var d := s.feeders[f];
            Stands(Fed(v, b == d.to, d.role, Parcel(Arguments(data), DiscardIt), Accepting(s.actors[d.to])), w,
                   Feed(s, f, m, Arguments(data)), b)
  {
    hide Holds, Feed;
    var d := s.feeders[f];
    var t := Feed(s, f, m, Arguments(data));
    var p := Parcel(Arguments(data), DiscardIt);
    FeedSeen(s, f, m, Arguments(data));
    var v' := Fed(v, b == d.to, d.role, p, Accepting(s.actors[d.to]));
    forall r | r in v.mail ensures Holds(v'.mail[r].queue, t.actors[b].lanes[r].queue, w, t) {
      var q := s.actors[b].lanes[r].queue;
      HoldsStill(v.mail[r].queue, q, w, s, t);
      HoldsOneMore(v.mail[r].queue, q, w, t, p, m);
      assert q + [] == q;
    }
  }

  lemma FedShows(before: Sight, after: Sight, w: World, s: System, shell: Shell, f: FeederId, m: MsgId, data: Data)
    requires Shows(before, w, s) && w.Separate() && before.views.Keys == after.views.Keys == w.shells
    requires f in s.feeders && s.feeders[f].live && m !in s.msgs && Exists(s, s.feeders[f].to, s.feeders[f].role)
    requires shell in w.shells && shell.actor == s.feeders[f].to && after.cells == before.cells
    requires forall sh <- w.shells ::
               after.views[sh] == Fed(before.views[sh], sh == shell, s.feeders[f].role,
                                      Parcel(Arguments(data), DiscardIt), Accepting(s.actors[shell.actor]))
    ensures Shows(after, w, Feed(s, f, m, Arguments(data)))
  {
    hide Stands, Fed, Feed, CellsStand, SameParcels, SameCells, FedActor;
    FeedSeen(s, f, m, Arguments(data));
    SameCellsStand(before.cells, s, Feed(s, f, m, Arguments(data)));
    forall sh | sh in w.shells ensures Stands(after.views[sh], w, Feed(s, f, m, Arguments(data)), sh.actor) {
      assert Stands(before.views[sh], w, s, sh.actor);
      FedStands(before.views[sh], w, s, sh.actor, f, m, data);
    }
  }

  /** One turn of the feed_to loop: the item is offered; if it is refused the task ends, and its handle goes. */
  method FeedOne(shell: Shell, role: RoleId, data: Data, ghost w: World, ghost s: System, ghost f: FeederId,
                 ghost m: MsgId)
    returns (accepted: bool)
    requires w.Is(s) && Feeds(shell, role, w, s, f) && TaskEnabled(s, FeedItem(f, m, data))
    modifies shell, shell.channels[role]
    ensures var t := ApplyTask(s, FeedItem(f, m, data));
            w.Is(t) && accepted == Accepting(s.actors[shell.actor]) && (accepted ==> Feeds(shell, role, w, t, f))
    ensures var c := shell.channels[role];
            c.queue == old(c.queue) + (if accepted then [Parcel(Arguments(data), DiscardIt)] else [])
            && c.open == old(c.open) && accepted == c.open && shell.strong == old(shell.strong) - Bit(!accepted)
  {
    hide AllStand, CellsStand, Feed, Holds, Fed, World.Separate, SameParcels, SameCells, FedActor;
    ghost var before := w.Look();
    SeenRole(before, w, s, shell, role);
    StandsFor(before, w, s, shell, role);
    FeedSeen(s, f, m, Arguments(data));
    assert before.views[shell].mail[role].open == shell.channels[role].open;
    accepted := OfferOwn(shell, role, Parcel(Arguments(data), DiscardIt), w);
    FedShows(before, w.Look(), w, s, shell, f, m, data);
    StillFeeds(shell, role, w, s, f, m, data);
  }

  lemma StillFeeds(shell: Shell, role: RoleId, w: World, s: System, f: FeederId, m: MsgId, data: Data)
    requires Feeds(shell, role, w, s, f) && TaskEnabled(s, FeedItem(f, m, data))
    ensures Accepting(s.actors[shell.actor]) ==> Feeds(shell, role, w, ApplyTask(s, FeedItem(f, m, data)), f)
  {
    hide Feed;
    FeedSeen(s, f, m, Arguments(data));
  }

  /** One send by a task that keeps its handle unless the send is refused. */
  method OfferOwn(shell: Shell, role: RoleId, p: Parcel, ghost w: World) returns (accepted: bool)
    requires w.Separate() && shell in w.shells && role in shell.channels
    modifies shell, shell.channels[role]
    ensures accepted == old(shell.channels[role].open) == shell.channels[role].open
    ensures shell.channels[role].queue == old(shell.channels[role].queue) + (if accepted then [p] else [])
    ensures shell.strong == old(shell.strong) - Bit(!accepted)
    ensures forall sh <- w.shells :: sh.Look() == Fed(old(sh.Look()), sh == shell, role, p, accepted)
  {
    hide World.Separate, Put;
    ghost var before := map sh | sh in w.shells :: sh.Look();
    accepted := shell.PutIn(role, p, w);
    if !accepted { shell.strong := shell.strong - 1; }
    forall sh | sh in w.shells ensures sh.Look() == Fed(before[sh], sh == shell, role, p, accepted) {
      assert sh.Look().mail == Put(before[sh].mail, role, p, accepted && sh == shell);
    }
  }

  /** The stream has ended: the task ends, and its handle goes. */
  method FeedEnd(shell: Shell, role: RoleId, ghost w: World, ghost s: System, ghost f: FeederId)
    requires w.Is(s) && Feeds(shell, role, w, s, f)
    modifies shell
    ensures w.Is(ApplyTask(s, FeedEnds(f))) && shell.strong == old(shell.strong) - 1
  {
    hide AllStand, CellsStand;
    ghost var before := w.Look();
    shell.Release(w);
    RecountShows(before, w.Look(), w, s, ApplyTask(s, FeedEnds(f)), shell, -1);
  }

  lemma ItemKeeps(s: System, f: FeederId, m: MsgId, data: Data, a: ActorId)
    requires TaskEnabled(s, FeedItem(f, m, data)) && a in s.actors
    ensures var t := Apply(s, Task(FeedItem(f, m, data)));
            t == ApplyTask(s, FeedItem(f, m, data)) && t.msgs.Keys == s.msgs.Keys + {m}
            && a in t.actors && t.actors[a].phase == s.actors[a].phase
  {
    hide Feed;
    FeedSeen(s, f, m, Arguments(data));
  }

  lemma CloseKeeps(s: System, a: ActorId)
    requires a in s.actors && s.actors[a].phase.Finalizing?
    ensures LoopEnabled(s, a, HookReturned) && Enabled(s, Loop(a, HookReturned))
    ensures var t := Apply(s, Loop(a, HookReturned));
            t == ApplyLoop(s, a, HookReturned) && t.msgs == s.msgs && t.feeders == s.feeders
            && t.actors.Keys == s.actors.Keys && t.actors[a].lanes == s.actors[a].lanes
            && t.actors[a].phase.Closing?
  {}

  /** What FeedTo relies on before each item. */
  ghost predicate Feeding(shell: Shell, role: RoleId, w: World, s: System, f: FeederId, ids: seq<MsgId>, n: nat) {
    Feeds(shell, role, w, s, f) && forall i :: n <= i < |ids| ==> ids[i] !in s.msgs
  }

  /** The receivers close before item `closes`, if that is now. */
  method MayClose(shell: Shell, role: RoleId, now: bool, ghost w: World, ghost s: System, ghost f: FeederId,
                  ghost ids: seq<MsgId>, ghost n: nat)
    returns (ghost es: seq<Event>)
    requires w.Is(s) && Feeding(shell, role, w, s, f, ids, n)
    requires now ==> s.actors[shell.actor].phase.Finalizing?
    modifies shell.channels.Values
    ensures es == (if now then [Loop(shell.actor, HookReturned)] else []) && Runtime.Valid(s, es)
    ensures var t := Final(s, es);
            w.Is(t) && Feeding(shell, role, w, t, f, ids, n)
            && (!now ==> t.actors[shell.actor].phase == s.actors[shell.actor].phase)
    ensures shell.strong == old(shell.strong)
    ensures var c := shell.channels[role]; c.queue == old(c.queue) && c.open == (old(c.open) && !now)
  {
    hide Shows, Runtime.Valid, Final, Apply, Enabled, LoopEnabled, ApplyLoop;
    es := [];
    RunNone(s);
    if now {
      CloseKeeps(s, shell.actor);
      Close(shell, w, s);
      RunOne(s, Loop(shell.actor, HookReturned));
      es := [Loop(shell.actor, HookReturned)];
    }
  }

  /** One item, as an event of the run. */
  method NextItem(shell: Shell, role: RoleId, data: Data, ghost w: World, ghost s: System, ghost f: FeederId,
                  ghost ids: seq<MsgId>, ghost n: nat)
    returns (accepted: bool, ghost e: Event)
    requires w.Is(s) && n < |ids| && Feeding(shell, role, w, s, f, ids, n)
    requires Distinct(ids)
    modifies shell, shell.channels[role]
    ensures e == Task(FeedItem(f, ids[n], data)) && Enabled(s, e) && w.Is(Apply(s, e))
    ensures accepted ==> Feeding(shell, role, w, Apply(s, e), f, ids, n + 1)
    ensures shell.actor in Apply(s, e).actors && shell.actor in s.actors
            && Apply(s, e).actors[shell.actor].phase == s.actors[shell.actor].phase
    ensures var c := shell.channels[role];
            c.queue == old(c.queue) + (if accepted then [Parcel(Arguments(data), DiscardIt)] else [])
            && c.open == old(c.open) && accepted == c.open && shell.strong == old(shell.strong) - Bit(!accepted)
  {
    hide Shows, Feed;
    e := Task(FeedItem(f, ids[n], data));
    ItemKeeps(s, f, ids[n], data, shell.actor);
    hide Apply, ApplyTask;
    accepted := FeedOne(shell, role, data, w, s, f, ids[n]);
  }

  /** es is a run from s to t. */
  ghost predicate RunsTo(s: System, es: seq<Event>, t: System) {
    Runtime.Valid(s, es) && Final(s, es) == t
  }

  lemma RunsOn(s: System, es: seq<Event>, t: System, fs: seq<Event>, u: System)
    requires RunsTo(s, es, t) && RunsTo(t, fs, u)
    ensures RunsTo(s, es + fs, u)
  {
    RunConcat(s, es, fs);
  }

  /** One turn of the loop. */
  method FeedTurn(shell: Shell, role: RoleId, data: Data, now: bool, ghost w: World, ghost s: System,
                  ghost phase: Phase, ghost f: FeederId, ghost ids: seq<MsgId>, ghost n: nat)
    returns (accepted: bool, ghost es: seq<Event>, ghost t: System)
    requires w.Is(s) && n < |ids| && Feeding(shell, role, w, s, f, ids, n) && Distinct(ids)
    requires InPhase(s, shell.actor, phase) && (now ==> phase.Finalizing?)
    modifies shell, shell.channels.Values
    ensures es == (if now then [Loop(shell.actor, HookReturned)] else []) + [Task(FeedItem(f, ids[n], data))]
    ensures RunsTo(s, es, t) && w.Is(t)
    ensures accepted ==> Feeding(shell, role, w, t, f, ids, n + 1) && InPhase(t, shell.actor, phase)
    ensures accepted ==> es == [Task(FeedItem(f, ids[n], data))]
    ensures var c := shell.channels[role];
            c.queue == old(c.queue) + (if accepted then [Parcel(Arguments(data), DiscardIt)] else [])
            && c.open == (old(c.open) && !now) && accepted == c.open
            && shell.strong == old(shell.strong) - Bit(!accepted)
  {
    var c := shell.channels[role];
    assert shell.actor in s.actors;
    hide World.Is, Feeding, Runtime.Valid, Final, Apply, Enabled;
    ghost var closing := MayClose(shell, role, now, w, s, f, ids, n);
    ghost var e;
    accepted, e := NextItem(shell, role, data, w, Final(s, closing), f, ids, n);
    RunAppend(s, closing, e);
    es := closing + [e];
    t := Final(s, es);
  }

  /** What has been done of a stream before its n-th item: queue, events, and the state reached. */
  ghost predicate Sofar(stream: seq<Data>, f: FeederId, ids: seq<MsgId>, s: System, n: nat, before: seq<Parcel>,
                        queue: seq<Parcel>, es: seq<Event>, t: System) {
    n <= |stream| == |ids| && queue == before + Parcels(stream[..n]) && es == ItemEvents(f, ids, stream, n)
    && RunsTo(s, es, t)
  }

  lemma SofarNothing(stream: seq<Data>, f: FeederId, ids: seq<MsgId>, s: System, queue: seq<Parcel>)
    requires |stream| == |ids|
    ensures Sofar(stream, f, ids, s, 0, queue, queue, [], s)
  {
    RunNone(s);
  }

  lemma SofarOneMore(stream: seq<Data>, f: FeederId, ids: seq<MsgId>, s: System, n: nat, before: seq<Parcel>,
                     queue: seq<Parcel>, es: seq<Event>, t: System, u: System)
    requires n < |stream| && Sofar(stream, f, ids, s, n, before, queue, es, t)
    requires RunsTo(t, [Task(FeedItem(f, ids[n], stream[n]))], u)
    ensures Sofar(stream, f, ids, s, n + 1, before, queue + [Parcel(Arguments(stream[n]), DiscardIt)],
                  es + [Task(FeedItem(f, ids[n], stream[n]))], u)
  {
    hide RunsTo;
    OneMoreFed(f, ids, stream, n);
    RunsOn(s, es, t, [Task(FeedItem(f, ids[n], stream[n]))], u);
  }

  /**
   * The task of feed_to. `closes` says before which item the receivers go away, if they do. It is a run of the runtime:
   * an event for each item, up to the first one refused, and the end of the stream if there is none. What reaches the
   * mailbox is the stream up to that point, in order; the item refused ends the loop and is pulled but not sent.
   */
  method FeedTo(stream: seq<Data>, shell: Shell, role: RoleId, closes: nat, ghost w: World, ghost s: System,
                ghost f: FeederId, ghost ids: seq<MsgId>)
    returns (pulled: nat, ghost es: seq<Event>)
    requires w.Is(s) && |ids| == |stream| && Feeding(shell, role, w, s, f, ids, 0) && Distinct(ids)
    requires closes < |stream| && shell.channels[role].open ==> s.actors[shell.actor].phase.Finalizing?
    modifies shell, shell.channels.Values
    ensures es == FeedEvents(f, shell.actor, ids, stream, old(shell.channels[role].open), closes)
    ensures Runtime.Valid(s, es) && w.Is(Final(s, es))
    ensures var c := shell.channels[role];
            var sent := if !old(c.open) then 0 else if closes < |stream| then closes else |stream|;
            && c.queue == old(c.queue) + Parcels(stream[..sent])
            && pulled == sent + (if sent < |stream| then 1 else 0)
            && c.open == (old(c.open) && closes >= |stream|)
    ensures shell.strong == old(shell.strong) - 1
  {
    hide World.Is, Feeding, Apply, Enabled, Sofar, Distinct, InPhase, RunsTo, Runtime.Valid, Final;
    hide FeedEvents, ItemEvents, Parcels, ApplyTask, Feeds;
    IsFeeding(shell, role, w, s, f, ids, 0);
    var c := shell.channels[role];
    ghost var a, phase := shell.actor, s.actors[shell.actor].phase;
    ghost var queue, open := c.queue, c.open;
    IsInPhase(s, a);
    ghost var t := s;
    pulled, es := 0, [];
    SofarNothing(stream, f, ids, s, queue);
    while pulled < |stream|
      invariant pulled <= |stream| && pulled <= closes && (pulled > 0 ==> open)
      invariant c.open == open && shell.strong == old(shell.strong) && w.Is(t)
      invariant Sofar(stream, f, ids, s, pulled, queue, c.queue, es, t)
      invariant Feeding(shell, role, w, t, f, ids, pulled) && InPhase(t, a, phase)
    {
      var accepted;
      ghost var turn, u, had := [], t, c.queue;
      accepted, turn, u :=
        FeedTurn(shell, role, stream[pulled], pulled == closes && c.open, w, t, phase, f, ids, pulled);
      if !accepted {
        assert had + [] == had;
        RefusedRun(stream, f, a, ids, s, pulled, queue, c.queue, es, t, turn, u, open, closes);
        es, pulled := es + turn, pulled + 1;
        return;
      }
      SofarOneMore(stream, f, ids, s, pulled, queue, had, es, t, u);
      es, pulled, t := es + turn, pulled + 1, u;
    }
    EndEnabled(shell, role, w, t, f, ids, pulled);
    FeedEnd(shell, role, w, t, f);
    AllFedRun(stream, f, a, ids, s, queue, c.queue, es, t, open, closes);
    es := es + [Task(FeedEnds(f))];
  }

  lemma RefusedRun(stream: seq<Data>, f: FeederId, a: ActorId, ids: seq<MsgId>, s: System, n: nat, before: seq<Parcel>,
                   queue: seq<Parcel>, es: seq<Event>, t: System, turn: seq<Event>, u: System, open: bool, closes: nat)
    requires n < |stream| && Sofar(stream, f, ids, s, n, before, queue, es, t) && RunsTo(t, turn, u)
    requires n <= closes && (n > 0 ==> open) && (open ==> n == closes)
    requires turn == (if open then [Loop(a, HookReturned)] else []) + [Task(FeedItem(f, ids[n], stream[n]))]
    ensures es + turn == FeedEvents(f, a, ids, stream, open, closes)
    ensures Runtime.Valid(s, es + turn) && Final(s, es + turn) == u && queue == before + Parcels(stream[..n])
  {
    RefusedEvents(f, a, ids, stream, open, closes, n);
    RunsOn(s, es, t, turn, u);
  }

  lemma AllFedRun(stream: seq<Data>, f: FeederId, a: ActorId, ids: seq<MsgId>, s: System, before: seq<Parcel>,
                  queue: seq<Parcel>, es: seq<Event>, t: System, open: bool, closes: nat)
    requires Sofar(stream, f, ids, s, |stream|, before, queue, es, t) && |stream| <= closes && (stream != [] ==> open)
    requires Enabled(t, Task(FeedEnds(f)))
    ensures es + [Task(FeedEnds(f))] == FeedEvents(f, a, ids, stream, open, closes)
    ensures Runtime.Valid(s, es + [Task(FeedEnds(f))])
    ensures Final(s, es + [Task(FeedEnds(f))]) == ApplyTask(t, FeedEnds(f))
    ensures queue == before + Parcels(stream) && stream[..|stream|] == stream
  {
    AllFed(f, a, ids, stream, open, closes);
    RunAppend(s, es, Task(FeedEnds(f)));
  }

  ghost predicate InPhase(s: System, a: ActorId, phase: Phase) {
    a in s.actors && s.actors[a].phase == phase
  }

  lemma IsInPhase(s: System, a: ActorId)
    requires a in s.actors
    ensures InPhase(s, a, s.actors[a].phase)
  {}

  lemma NothingYetFed(f: FeederId, ids: seq<MsgId>, stream: seq<Data>)
    requires |ids| == |stream|
    ensures ItemEvents(f, ids, stream, 0) == [] && Parcels(stream[..0]) == []
  {}

  lemma OneMoreFed(f: FeederId, ids: seq<MsgId>, stream: seq<Data>, n: nat)
    requires n < |stream| == |ids|
    ensures ItemEvents(f, ids, stream, n) + [Task(FeedItem(f, ids[n], stream[n]))] == ItemEvents(f, ids, stream, n + 1)
    ensures Parcels(stream[..n + 1]) == Parcels(stream[..n]) + [Parcel(Arguments(stream[n]), DiscardIt)]
  {}

  lemma RefusedEvents(f: FeederId, a: ActorId, ids: seq<MsgId>, stream: seq<Data>, open: bool, closes: nat, n: nat)
    requires n < |stream| == |ids| && n <= closes && (n > 0 ==> open) && (open ==> n == closes)
    ensures ItemEvents(f, ids, stream, n) + ((if open then [Loop(a, HookReturned)] else [])
                                             + [Task(FeedItem(f, ids[n], stream[n]))])
         == FeedEvents(f, a, ids, stream, open, closes)
  {
    if !open { OneMoreFed(f, ids, stream, 0); }
  }

  lemma AllFed(f: FeederId, a: ActorId, ids: seq<MsgId>, stream: seq<Data>, open: bool, closes: nat)
    requires |ids| == |stream| <= closes && (stream != [] ==> open)
    ensures ItemEvents(f, ids, stream, |stream|) + [Task(FeedEnds(f))] == FeedEvents(f, a, ids, stream, open, closes)
    ensures stream[..|stream|] == stream
  {}

  lemma IsFeeding(shell: Shell, role: RoleId, w: World, s: System, f: FeederId, ids: seq<MsgId>, n: nat)
    requires Feeding(shell, role, w, s, f, ids, n)
    ensures role in shell.channels && shell.actor in s.actors
  {}

  lemma EndEnabled(shell: Shell, role: RoleId, w: World, s: System, f: FeederId, ids: seq<MsgId>, n: nat)
    requires Feeding(shell, role, w, s, f, ids, n)
    ensures Feeds(shell, role, w, s, f) && Enabled(s, Task(FeedEnds(f)))
    ensures Apply(s, Task(FeedEnds(f))) == ApplyTask(s, FeedEnds(f))
  {}
}
