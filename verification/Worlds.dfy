/**
 * The objects shared between actors, and the states of the runtime they stand for: shells with their counts, the
 * channels behind the mailboxes, and the one-shot reply channels. The ghost parameters of a method name the world of
 * these objects and the state it stands for; its contract says which step of the runtime it performs.
 */
module Worlds {
  import opened Types
  import opened ActorSteps
  import opened Runtime
  import opened Ownership
  import opened Invariants
  import opened Reachability
  import opened Delivery

  /** ReturnPath, with the objects it owns. */
  datatype Return = DiscardIt | ToMailbox(recipient: Shell, role: RoleId) | ToCaller(reply: OneShot)

  /** ReturnEnvelope: what is in a mailbox. */
  datatype Parcel = Parcel(payload: Payload, path: Return)

  /** The one-shot reply channel. */
  class OneShot {
    var cell: Cell

    constructor ()
      ensures cell == Open
    {
      cell := Open;
    }
  }

  // ---- what the objects stand for ----

  datatype Box = Box(open: bool, queue: seq<Parcel>)

  /** All there is to see of a shell. */
  datatype View = View(strong: int, mail: map<RoleId, Box>)

  /** All there is to see of a world. */
  datatype Sight = Sight(views: map<Shell, View>, cells: map<MsgId, Cell>)

  /** The shells of some actors, and the reply channel of each awaited message. */
  datatype World = World(shells: set<Shell>, replies: map<MsgId, OneShot>) {
    /** No two shells are of the same actor or share a channel, and no two messages a reply channel. */
    ghost predicate Separate() {
      && (forall sh <- shells :: sh.Owns())
      && (forall sh, sh2 :: sh in shells && sh2 in shells && sh.actor == sh2.actor ==> sh == sh2)
      && (forall m, k :: m in replies && k in replies && replies[m] == replies[k] ==> m == k)
    }

    ghost function Look(): Sight
      reads shells, (set sh, c | sh in shells && c in sh.channels.Values :: c), replies.Values
    {
      Sight(map sh | sh in shells :: sh.Look(), map m | m in replies :: replies[m].cell)
    }

    /** Each shell stands for the actor of its own in s, and each reply channel for that of its message. */
    ghost predicate Is(s: System)
      reads shells, (set sh, c | sh in shells && c in sh.channels.Values :: c), replies.Values
    {
      Separate() && Shows(Look(), this, s)
    }

    /** w has everything this world has. */
    ghost predicate Within(w: World) {
      shells <= w.shells && forall m <- replies :: m in w.replies && w.replies[m] == replies[m]
    }
  }

  /** The parcel of message m: its payload, and its own return path. */
  ghost predicate ParcelIs(p: Parcel, w: World, s: System, m: MsgId) {
    m in s.msgs && p.payload == s.msgs[m].payload && PathIs(p.path, w, s, m)
  }

  ghost predicate PathIs(p: Return, w: World, s: System, m: MsgId) {
    m in s.msgs &&
    match p
    case DiscardIt => s.msgs[m].path.Discard?
    case ToMailbox(recipient, role) => recipient in w.shells && s.msgs[m].path == Mailbox(recipient.actor, role)
    case ToCaller(reply) => s.msgs[m].path.Immediate? && m in w.replies && w.replies[m] == reply
  }

  ghost predicate Holds(ps: seq<Parcel>, ms: seq<MsgId>, w: World, s: System) {
    |ps| == |ms| && forall i :: 0 <= i < |ps| ==> ParcelIs(ps[i], w, s, ms[i])
  }

  /** What is seen is actor a of s. */
  ghost predicate Stands(v: View, w: World, s: System, a: ActorId) {
    && a in s.actors
    && var x := s.actors[a];
    && v.strong == x.strong && v.mail.Keys == x.lanes.Keys
    && forall r <- v.mail :: v.mail[r].open == Accepting(x) && Holds(v.mail[r].queue, x.lanes[r].queue, w, s)
  }

  ghost predicate CellsStand(cells: map<MsgId, Cell>, s: System) {
    forall m <- cells :: m in s.msgs && s.msgs[m].path.Immediate? && cells[m] == s.msgs[m].cell
  }

  ghost predicate AllStand(views: map<Shell, View>, w: World, s: System) {
    forall sh <- views :: Stands(views[sh], w, s, sh.actor)
  }

  ghost predicate Shows(k: Sight, w: World, s: System) {
    AllStand(k.views, w, s) && CellsStand(k.cells, s)
  }

  lemma StandsFor(k: Sight, w: World, s: System, sh: Shell, r: RoleId)
    requires Shows(k, w, s) && sh in k.views && r in k.views[sh].mail
    ensures Exists(s, sh.actor, r) && k.views[sh].mail[r].open == Accepting(s.actors[sh.actor])
    ensures Holds(k.views[sh].mail[r].queue, s.actors[sh.actor].lanes[r].queue, w, s)
  {
    assert Stands(k.views[sh], w, s, sh.actor);
  }

  lemma SeenRole(k: Sight, w: World, s: System, sh: Shell, r: RoleId)
    requires Shows(k, w, s) && sh in k.views && Exists(s, sh.actor, r)
    ensures r in k.views[sh].mail
  {
    assert Stands(k.views[sh], w, s, sh.actor);
  }

  // ---- steps that the objects cannot see ----

  /** Nothing about messages that a parcel knows is different in t. */
  ghost predicate SameParcels(s: System, t: System) {
    forall k <- s.msgs :: k in t.msgs && t.msgs[k].payload == s.msgs[k].payload && t.msgs[k].path == s.msgs[k].path
  }

  ghost predicate SameCells(s: System, t: System) {
    forall k <- s.msgs :: k in t.msgs && t.msgs[k].cell == s.msgs[k].cell
  }

  /** As far as shells can tell, nothing happened to the actors. */
  ghost predicate SameShells(s: System, t: System) {
    forall a <- s.actors ::
      a in t.actors && t.actors[a].strong == s.actors[a].strong && Accepting(t.actors[a]) == Accepting(s.actors[a])
      && t.actors[a].lanes.Keys == s.actors[a].lanes.Keys
      && forall r <- s.actors[a].lanes :: t.actors[a].lanes[r].queue == s.actors[a].lanes[r].queue
  }

  lemma HoldsStill(ps: seq<Parcel>, ms: seq<MsgId>, w: World, s: System, t: System)
    requires Holds(ps, ms, w, s) && SameParcels(s, t)
    ensures Holds(ps, ms, w, t)
  {}

  lemma HoldsWider(ps: seq<Parcel>, ms: seq<MsgId>, w: World, w2: World, s: System)
    requires Holds(ps, ms, w, s) && w.Within(w2)
    ensures Holds(ps, ms, w2, s)
  {}

  lemma HoldsOneMore(ps: seq<Parcel>, ms: seq<MsgId>, w: World, s: System, p: Parcel, m: MsgId)
    requires Holds(ps, ms, w, s) && ParcelIs(p, w, s, m)
    ensures Holds(ps + [p], ms + [m], w, s)
  {}

  lemma HoldsOneLess(ps: seq<Parcel>, ms: seq<MsgId>, w: World, s: System)
    requires Holds(ps, ms, w, s)
    ensures |ps| == |ms|
    ensures ps != [] ==> ParcelIs(ps[0], w, s, ms[0]) && Holds(ps[1..], ms[1..], w, s)
  {}

  lemma SameStands(views: map<Shell, View>, w: World, s: System, t: System)
    requires AllStand(views, w, s) && SameShells(s, t) && SameParcels(s, t)
    ensures AllStand(views, w, t)
  {
    hide Holds;
    forall sh | sh in views ensures Stands(views[sh], w, t, sh.actor) {
      assert Stands(views[sh], w, s, sh.actor);
      forall r | r in views[sh].mail ensures Holds(views[sh].mail[r].queue, t.actors[sh.actor].lanes[r].queue, w, t) {
        HoldsStill(views[sh].mail[r].queue, s.actors[sh.actor].lanes[r].queue, w, s, t);
      }
    }
  }

  lemma SameCellsStand(cells: map<MsgId, Cell>, s: System, t: System)
    requires CellsStand(cells, s) && SameParcels(s, t) && SameCells(s, t)
    ensures CellsStand(cells, t)
  {}

  lemma SameShows(k: Sight, w: World, s: System, t: System)
    requires Shows(k, w, s) && SameShells(s, t) && SameParcels(s, t) && SameCells(s, t)
    ensures Shows(k, w, t)
  {
    SameStands(k.views, w, s, t);
    SameCellsStand(k.cells, s, t);
  }

  lemma WiderShows(k: Sight, w: World, w2: World, s: System)
    requires Shows(k, w, s) && w.Within(w2)
    ensures Shows(k, w2, s)
  {
    forall sh | sh in k.views ensures Stands(k.views[sh], w2, s, sh.actor) {
      assert Stands(k.views[sh], w, s, sh.actor);
      forall r | r in k.views[sh].mail
        ensures Holds(k.views[sh].mail[r].queue, s.actors[sh.actor].lanes[r].queue, w2, s)
      {
        HoldsWider(k.views[sh].mail[r].queue, s.actors[sh.actor].lanes[r].queue, w, w2, s);
      }
    }
  }

  /** Message m, which is in no mailbox and awaited by nobody, gets another return path. */
  lemma UnsentShows(k: Sight, w: World, s: System, t: System, m: MsgId)
    requires Reachable(s) && m in s.msgs && !s.msgs[m].stage.Accepted() && !s.msgs[m].path.Immediate?
    requires Shows(k, w, s) && SameShells(s, t)
    requires m in t.msgs && t.msgs == s.msgs[m := t.msgs[m]]
    ensures Shows(k, w, t)
  {
    hide Reachable, Times;
    forall sh | sh in k.views ensures Stands(k.views[sh], w, t, sh.actor) {
      assert Stands(k.views[sh], w, s, sh.actor);
      forall r | r in k.views[sh].mail
        ensures Holds(k.views[sh].mail[r].queue, t.actors[sh.actor].lanes[r].queue, w, t)
      {
        OnePlace(s, m, sh.actor, r);
        TimesIn(s.actors[sh.actor].lanes[r].queue, m);
      }
    }
  }

  lemma TimesIn(q: seq<MsgId>, m: MsgId)
    ensures Times(q, m) > 0 <==> m in q
  {}

  // ---- shells and channels ----

  /** The mailboxes of a shell with one parcel more, if it was accepted here. */
  function Put(mail: map<RoleId, Box>, role: RoleId, p: Parcel, accepted: bool): map<RoleId, Box> {
    if accepted && role in mail then mail[role := Box(mail[role].open, mail[role].queue + [p])] else mail
  }

  /** A shell after parcel p was offered to dest. */
  function Enqueued(v: View, sh: Shell, dest: Shell, role: RoleId, p: Parcel, accepted: bool): View {
    View(v.strong - Bit(sh == dest) - Bit(!accepted && p.path.ToMailbox? && p.path.recipient == sh),
         Put(v.mail, role, p, accepted && sh == dest))
  }

  /** A shell after the oldest parcel of one mailbox was taken. */
  function Shorter(v: View, here: bool, role: RoleId): View {
    if here && role in v.mail && v.mail[role].queue != [] then
      v.(mail := v.mail[role := Box(v.mail[role].open, v.mail[role].queue[1..])])
    else v
  }

  /** The unbounded channel behind a mailbox: FIFO, and refusing sends once its receiver is gone. */
  class Channel {
    ghost const actor: ActorId
    ghost const role: RoleId
    var queue: seq<Parcel>
    var open: bool

    constructor (ghost actor: ActorId, ghost role: RoleId)
      ensures this.actor == actor && this.role == role && queue == [] && open
    {
      this.actor, this.role := actor, role;
      queue, open := [], true;
    }

    method Send(p: Parcel) returns (accepted: bool)
      modifies this`queue
      ensures accepted == open
      ensures queue == if open then old(queue) + [p] else old(queue)
    {
      if open { queue := queue + [p]; }
      accepted := open;
    }

    method Take(ghost w: World, ghost shell: Shell) returns (p: Parcel)
      requires w.Separate() && shell in w.shells && role in shell.channels && shell.channels[role] == this
      requires queue != []
      modifies this`queue
      ensures p == old(queue)[0] && w.Look().cells == old(w.Look().cells)
      ensures forall sh <- w.shells ::
                w.Look().views[sh] == Shorter(old(w.Look()).views[sh], sh == shell, role)
    {
      ghost var before := w.Look().views;
      p := queue[0];
      queue := queue[1..];
      forall sh | sh in w.shells ensures sh.Look() == Shorter(before[sh], sh == shell, role) {
        assert sh.Look().mail == Shorter(before[sh], sh == shell, role).mail;
      }
    }

    /** The receive branch of a loop that found this mailbox ready: its parcel is that of the message taken. */
    method Receive(ghost w: World, ghost s: System, ghost shell: Shell) returns (p: Parcel)
      requires w.Is(s) && LoopEnabled(s, actor, Received(role))
      requires shell in w.shells && role in shell.channels && shell.channels[role] == this
      modifies this`queue
      ensures w.Is(ApplyLoop(s, actor, Received(role)))
      ensures ParcelIs(p, w, s, s.actors[actor].lanes[role].queue[0])
    {
      hide LoopEnabled, ApplyLoop, AllStand, Shorter, Holds, ParcelIs, Popped;
      ghost var before := w.Look();
      StandsFor(before, w, s, shell, role);
      ReceivedPopped(s, actor, role);
      ReceivedQueued(s, actor, role);
      assert before.views[shell].mail[role].queue == queue;
      HoldsOneLess(queue, s.actors[actor].lanes[role].queue, w, s);
      p := Take(w, shell);
      PoppedShows(before, w.Look(), w, s, ApplyLoop(s, actor, Received(role)), shell, role);
    }
  }

  /** An actor shell behind an Arc: its count and the sending halves of its channels. */
  class Shell {
    ghost const actor: ActorId
    const channels: map<RoleId, Channel>
    var strong: int

    constructor (channels: map<RoleId, Channel>, ghost actor: ActorId)
      ensures this.channels == channels && this.actor == actor && strong == 1
    {
      this.channels, this.actor := channels, actor;
      strong := 1;
    }

    /** Its channels are its own. */
    ghost predicate Owns() {
      forall r <- channels :: channels[r].actor == actor && channels[r].role == r
    }

    ghost function Look(): View
      reads this, channels.Values
    {
      View(strong, map r | r in channels :: Box(channels[r].open, channels[r].queue))
    }

    /** Another handle. */
    method Clone(ghost w: World)
      requires w.Separate() && this in w.shells
      modifies this
      ensures w.Look().cells == old(w.Look().cells)
      ensures forall sh <- w.shells ::
                w.Look().views[sh] == old(w.Look()).views[sh].(strong := old(sh.strong) + Bit(sh == this))
    {
      strong := strong + 1;
    }

    /** A handle goes. */
    method Release(ghost w: World)
      requires w.Separate() && this in w.shells
      modifies this
      ensures w.Look().cells == old(w.Look().cells)
      ensures forall sh <- w.shells ::
                w.Look().views[sh] == old(w.Look()).views[sh].(strong := old(sh.strong) - Bit(sh == this))
    {
      strong := strong - 1;
    }

    /** One send, after which the sender's handle goes, and with a refused parcel what that owns. */
    method Offer(role: RoleId, p: Parcel, ghost w: World) returns (accepted: bool)
      requires w.Separate() && this in w.shells && role in channels
      modifies this, channels[role]
      modifies if p.path.ToMailbox? then {p.path.recipient} else {}
      ensures accepted == old(channels[role].open)
      ensures forall sh <- w.shells :: sh.Look() == Enqueued(old(sh.Look()), sh, this, role, p, accepted)
    {
      hide World.Separate, Put;
      ghost var before := map sh | sh in w.shells :: sh.Look();
      accepted := PutIn(role, p, w);
      strong := strong - 1;
      if !accepted && p.path.ToMailbox? { p.path.recipient.strong := p.path.recipient.strong - 1; }
      forall sh | sh in w.shells ensures sh.Look() == Enqueued(before[sh], sh, this, role, p, accepted) {
        assert sh.Look().mail == Put(before[sh].mail, role, p, accepted && sh == this);
      }
    }

    /** The send itself. */
    method PutIn(role: RoleId, p: Parcel, ghost w: World) returns (accepted: bool)
      requires w.Separate() && this in w.shells && role in channels
      modifies channels[role]
      ensures accepted == old(channels[role].open) == channels[role].open
      ensures channels[role].queue == old(channels[role].queue) + (if accepted then [p] else [])
      ensures forall sh <- w.shells ::
                sh.Look() == View(old(sh.strong), Put(old(sh.Look()).mail, role, p, accepted && sh == this))
    {
      ghost var before := map sh | sh in w.shells :: sh.Look();
      accepted := channels[role].Send(p);
      forall sh | sh in w.shells ensures sh.Look().mail == Put(before[sh].mail, role, p, accepted && sh == this) {
        assert sh != this ==> forall r <- sh.channels :: sh.channels[r] != channels[role];
      }
    }

    /** enqueue by a future that owns its handle and ends with it: the runtime's submission of message m. */
    method EnqueueAndDrop(role: RoleId, p: Parcel, ghost w: World, ghost s: System, ghost m: MsgId)
      returns (accepted: bool)
      requires w.Is(s) && this in w.shells && role in channels
      requires Rooted(s, m) && s.msgs[m].to == actor && s.msgs[m].role == role && ParcelIs(p, w, s, m)
      modifies this, channels[role]
      modifies if p.path.ToMailbox? then {p.path.recipient} else {}
      ensures w.Is(Submit(s, m))
      ensures accepted == Accepting(s.actors[actor])
    {
      hide AllStand, CellsStand, Submit, Holds, ParcelIs, Enqueued;
      ghost var before := w.Look();
      StandsFor(before, w, s, this, role);
      assert before.views[this].mail[role].open == channels[role].open;
      accepted := Offer(role, p, w);
      SubmitShows(before, w.Look(), w, s, m, this, p);
    }
  }

  // ---- steps that change one count ----

  /** As far as the objects can tell, all that happened is that a's count changed by d. */
  ghost predicate Recounted(s: System, t: System, a: ActorId, d: int) {
    && SameParcels(s, t) && SameCells(s, t)
    && forall b <- s.actors ::
         b in t.actors && t.actors[b].strong == s.actors[b].strong + (if b == a then d else 0)
         && Accepting(t.actors[b]) == Accepting(s.actors[b]) && t.actors[b].lanes.Keys == s.actors[b].lanes.Keys
         && forall r <- s.actors[b].lanes :: t.actors[b].lanes[r].queue == s.actors[b].lanes[r].queue
  }

  lemma RecountStands(v: View, w: World, s: System, t: System, b: ActorId, a: ActorId, d: int)
    requires Stands(v, w, s, b) && Recounted(s, t, a, d)
    ensures Stands(v.(strong := v.strong + if b == a then d else 0), w, t, b)
  {
    hide Holds, ParcelIs;
    forall r | r in v.mail ensures Holds(v.mail[r].queue, t.actors[b].lanes[r].queue, w, t) {
      HoldsStill(v.mail[r].queue, s.actors[b].lanes[r].queue, w, s, t);
    }
  }

  lemma RecountShows(before: Sight, after: Sight, w: World, s: System, t: System, shell: Shell, d: int)
    requires Shows(before, w, s) && w.Separate() && before.views.Keys == after.views.Keys == w.shells
    requires shell in w.shells && Recounted(s, t, shell.actor, d) && after.cells == before.cells
    requires forall sh <- w.shells ::
               after.views[sh]
               == before.views[sh].(strong := before.views[sh].strong + if sh == shell then d else 0)
    ensures Shows(after, w, t)
  {
    SameCellsStand(before.cells, s, t);
    hide Stands, Recounted, CellsStand;
    forall sh | sh in w.shells ensures Stands(after.views[sh], w, t, sh.actor) {
      assert Stands(before.views[sh], w, s, sh.actor);
      RecountStands(before.views[sh], w, s, t, sh.actor, shell.actor, d);
    }
  }

  /** Arc::clone by user code. */
  method CloneHandle(shell: Shell, ghost w: World, ghost s: System)
    requires w.Is(s) && shell in w.shells && HandleEnabled(s, HandleEvent.CloneHandle(shell.actor))
    modifies shell
    ensures w.Is(ApplyHandle(s, HandleEvent.CloneHandle(shell.actor)))
  {
    hide AllStand, CellsStand;
    ghost var before := w.Look();
    shell.Clone(w);
    RecountShows(before, w.Look(), w, s, ApplyHandle(s, HandleEvent.CloneHandle(shell.actor)), shell, 1);
  }

  /** A handle of user code is dropped. */
  method DropHandle(shell: Shell, ghost w: World, ghost s: System)
    requires w.Is(s) && shell in w.shells && HandleEnabled(s, HandleEvent.DropHandle(shell.actor))
    modifies shell
    ensures w.Is(ApplyHandle(s, HandleEvent.DropHandle(shell.actor)))
  {
    hide AllStand, CellsStand;
    ghost var before := w.Look();
    shell.Release(w);
    RecountShows(before, w.Look(), w, s, ApplyHandle(s, HandleEvent.DropHandle(shell.actor)), shell, -1);
  }

  /** The actor's task is over: the Context's own handle goes with it. */
  method EndTask(shell: Shell, ghost w: World, ghost s: System)
    requires w.Is(s) && shell in w.shells && LoopEnabled(s, shell.actor, TaskEnded)
    modifies shell
    ensures w.Is(ApplyLoop(s, shell.actor, TaskEnded))
  {
    hide AllStand, CellsStand;
    ghost var before := w.Look();
    shell.Release(w);
    RecountShows(before, w.Look(), w, s, ApplyLoop(s, shell.actor, TaskEnded), shell, -1);
  }

  // ---- what those methods do to what is seen ----

  /** What Submit does, as shells can tell. */
  lemma SubmitSeen(s: System, m: MsgId, a: ActorId)
    requires Rooted(s, m) && a in s.actors
    ensures a in Submit(s, m).actors && SameParcels(s, Submit(s, m)) && SameCells(s, Submit(s, m))
    ensures var g := s.msgs[m]; var x, y := s.actors[a], Submit(s, m).actors[a]; var open := Accepting(s.actors[g.to]);
            && Accepting(y) == Accepting(x) && y.lanes.Keys == x.lanes.Keys
            && y.strong == x.strong - Bit(a == g.to) - Bit(!open && g.path.Mailbox? && g.path.to == a)
            && (forall r <- x.lanes ::
                  y.lanes[r].queue == x.lanes[r].queue + if open && a == g.to && r == g.role then [m] else [])
  {}

  lemma SubmitStand(v: View, w: World, s: System, m: MsgId, p: Parcel, b: ActorId)
    requires Stands(v, w, s, b) && Rooted(s, m) && ParcelIs(p, w, s, m)
    ensures var g := s.msgs[m]; var open := Accepting(s.actors[g.to]);
            Stands(View(v.strong - Bit(b == g.to) - Bit(!open && g.path.Mailbox? && g.path.to == b),
                        Put(v.mail, g.role, p, open && b == g.to)), w, Submit(s, m), b)
  {
    var r0 := s.msgs[m].role;
    var here := Accepting(s.actors[s.msgs[m].to]) && b == s.msgs[m].to;
    hide Submit, Holds, ParcelIs, Put, Rooted;
    var t := Submit(s, m);
    SubmitSeen(s, m, b);
    PutAt(v.mail, r0, p, here, r0);
    forall r | r in v.mail
      ensures Holds(Put(v.mail, r0, p, here)[r].queue, t.actors[b].lanes[r].queue, w, t)
      ensures Put(v.mail, r0, p, here)[r].open == Accepting(t.actors[b])
    {
      var q := s.actors[b].lanes[r].queue;
      PutAt(v.mail, r0, p, here, r);
      HoldsStill(v.mail[r].queue, q, w, s, t);
      if here && r == r0 {
        ParcelStill(p, w, s, t, m);
        HoldsOneMore(v.mail[r].queue, q, w, t, p, m);
      } else {
        assert q + [] == q;
      }
    }
  }

  lemma PutAt(mail: map<RoleId, Box>, role: RoleId, p: Parcel, accepted: bool, r: RoleId)
    ensures Put(mail, role, p, accepted).Keys == mail.Keys
    ensures r in mail ==>
              var b := Put(mail, role, p, accepted)[r];
              b.open == mail[r].open && b.queue == if accepted && r == role then mail[r].queue + [p] else mail[r].queue
  {}

  /** Who owns what of a parcel, in terms of actors. */
  lemma SameOwners(sh: Shell, dest: Shell, p: Parcel, w: World, s: System, m: MsgId)
    requires w.Separate() && sh in w.shells && dest in w.shells && ParcelIs(p, w, s, m)
    ensures sh == dest <==> sh.actor == dest.actor
    ensures p.path.ToMailbox? && p.path.recipient == sh <==> s.msgs[m].path.Mailbox? && s.msgs[m].path.to == sh.actor
  {}

  lemma SubmitStands(before: map<Shell, View>, after: map<Shell, View>, w: World, s: System, m: MsgId, dest: Shell,
                     p: Parcel)
    requires AllStand(before, w, s) && w.Separate() && before.Keys == after.Keys == w.shells
    requires dest in w.shells && Rooted(s, m) && s.msgs[m].to == dest.actor && ParcelIs(p, w, s, m)
    requires forall sh <- w.shells ::
               after[sh] == Enqueued(before[sh], sh, dest, s.msgs[m].role, p, Accepting(s.actors[dest.actor]))
    ensures AllStand(after, w, Submit(s, m))
  {
    hide Submit, Stands, ParcelIs, Put, World.Separate;
    forall sh | sh in w.shells ensures Stands(after[sh], w, Submit(s, m), sh.actor) {
      assert Stands(before[sh], w, s, sh.actor);
      SubmitStand(before[sh], w, s, m, p, sh.actor);
      SameOwners(sh, dest, p, w, s, m);
    }
  }

  lemma SubmitShows(before: Sight, after: Sight, w: World, s: System, m: MsgId, dest: Shell, p: Parcel)
    requires Shows(before, w, s) && w.Separate() && before.views.Keys == after.views.Keys == w.shells
    requires dest in w.shells && Rooted(s, m) && s.msgs[m].to == dest.actor && ParcelIs(p, w, s, m)
    requires after.cells == before.cells
    requires forall sh <- w.shells ::
               after.views[sh]
               == Enqueued(before.views[sh], sh, dest, s.msgs[m].role, p, Accepting(s.actors[dest.actor]))
    ensures Shows(after, w, Submit(s, m))
  {
    hide Submit, AllStand, CellsStand, Enqueued, ParcelIs;
    SubmitSeen(s, m, dest.actor);
    SameCellsStand(before.cells, s, Submit(s, m));
    SubmitStands(before.views, after.views, w, s, m, dest, p);
  }

  lemma ReceivedQueued(s: System, a: ActorId, r: RoleId)
    requires LoopEnabled(s, a, Received(r))
    ensures Exists(s, a, r) && s.actors[a].lanes[r].queue != []
  {}

  /** In t one mailbox has lost its oldest message; that is all that shells and parcels can tell. */
  ghost predicate Popped(s: System, t: System, a: ActorId, r: RoleId) {
    && SameParcels(s, t) && SameCells(s, t) && t.actors.Keys == s.actors.Keys
    && (forall b <- s.actors ::
          t.actors[b].strong == s.actors[b].strong && Accepting(t.actors[b]) == Accepting(s.actors[b])
          && t.actors[b].lanes.Keys == s.actors[b].lanes.Keys
          && forall q <- s.actors[b].lanes ::
               t.actors[b].lanes[q].queue
               == if a == b && q == r && s.actors[b].lanes[q].queue != [] then s.actors[b].lanes[q].queue[1..]
                  else s.actors[b].lanes[q].queue)
  }

  lemma ReceivedPopped(s: System, a: ActorId, r: RoleId)
    requires LoopEnabled(s, a, Received(r))
    ensures Popped(s, ApplyLoop(s, a, Received(r)), a, r)
  {}

  lemma ShorterAt(v: View, here: bool, r: RoleId, q: RoleId)
    ensures Shorter(v, here, r).strong == v.strong && Shorter(v, here, r).mail.Keys == v.mail.Keys
    ensures q in v.mail ==>
              var b := Shorter(v, here, r).mail[q];
              b.open == v.mail[q].open
              && b.queue == if here && q == r && v.mail[q].queue != [] then v.mail[q].queue[1..] else v.mail[q].queue
  {}

  lemma PoppedStands(v: View, w: World, s: System, t: System, b: ActorId, a: ActorId, r: RoleId)
    requires Stands(v, w, s, b) && Popped(s, t, a, r)
    ensures Stands(Shorter(v, b == a, r), w, t, b)
  {
    hide Holds, ParcelIs, Shorter;
    ShorterAt(v, b == a, r, r);
    forall q | q in v.mail
      ensures Holds(Shorter(v, b == a, r).mail[q].queue, t.actors[b].lanes[q].queue, w, t)
      ensures Shorter(v, b == a, r).mail[q].open == Accepting(t.actors[b])
    {
      HoldsStill(v.mail[q].queue, s.actors[b].lanes[q].queue, w, s, t);
      HoldsOneLess(v.mail[q].queue, s.actors[b].lanes[q].queue, w, t);
      ShorterAt(v, b == a, r, q);
    }
  }

  lemma PoppedShows(before: Sight, after: Sight, w: World, s: System, t: System, shell: Shell, r: RoleId)
    requires Shows(before, w, s) && w.Separate() && before.views.Keys == after.views.Keys == w.shells
    requires shell in w.shells && Popped(s, t, shell.actor, r) && after.cells == before.cells
    requires forall sh <- w.shells :: after.views[sh] == Shorter(before.views[sh], sh == shell, r)
    ensures Shows(after, w, t)
  {
    hide Stands, Shorter, CellsStand;
    SameCellsStand(before.cells, s, t);
    hide Popped;
    forall sh | sh in w.shells ensures Stands(after.views[sh], w, t, sh.actor) {
      assert Stands(before.views[sh], w, s, sh.actor);
      PoppedStands(before.views[sh], w, s, t, sh.actor, shell.actor, r);
    }
  }

  // ---- the end of an actor: its receivers close and drop what is queued ----

  /** What becomes of a message that is destroyed, as the objects can tell. */
  lemma DestroySeen(s: System, m: MsgId, stage: Stage)
    requires Rooted(s, m)
    ensures var t := Destroy(s, m, stage); var path := s.msgs[m].path;
            && SameParcels(s, t) && t.actors.Keys == s.actors.Keys
            && (forall k <- s.msgs :: t.msgs[k].cell == if k == m && path.Immediate? then Broken else s.msgs[k].cell)
            && (forall b <- s.actors ::
                  && t.actors[b].strong == s.actors[b].strong - Bit(path.Mailbox? && path.to == b)
                  && Accepting(t.actors[b]) == Accepting(s.actors[b]) && t.actors[b].lanes == s.actors[b].lanes)
  {}

  lemma DestroyStands(v: View, w: World, s: System, m: MsgId, stage: Stage, b: ActorId)
    requires Stands(v, w, s, b) && Rooted(s, m)
    ensures Stands(v.(strong := v.strong - Bit(s.msgs[m].path.Mailbox? && s.msgs[m].path.to == b)), w,
                   Destroy(s, m, stage), b)
  {
    hide Holds, ParcelIs, Destroy;
    DestroySeen(s, m, stage);
    forall q | q in v.mail ensures Holds(v.mail[q].queue, s.actors[b].lanes[q].queue, w, Destroy(s, m, stage)) {
      HoldsStill(v.mail[q].queue, s.actors[b].lanes[q].queue, w, s, Destroy(s, m, stage));
    }
  }

  /** A shell after a parcel that may own a handle of it was dropped. */
  function Released(v: View, sh: Shell, p: Parcel): View {
    v.(strong := v.strong - Bit(p.path.ToMailbox? && p.path.recipient == sh))
  }

  lemma DestroyShows(before: Sight, after: Sight, w: World, s: System, p: Parcel, m: MsgId, stage: Stage)
    requires Shows(before, w, s) && w.Separate() && before.views.Keys == after.views.Keys == w.shells
    requires before.cells.Keys == after.cells.Keys == w.replies.Keys
    requires Rooted(s, m) && ParcelIs(p, w, s, m)
    requires forall sh <- w.shells :: after.views[sh] == Released(before.views[sh], sh, p)
    requires forall k <- w.replies ::
               after.cells[k] == if p.path.ToCaller? && p.path.reply == w.replies[k] then Broken else before.cells[k]
    ensures Shows(after, w, Destroy(s, m, stage))
  {
    hide Stands, Destroy;
    DestroySeen(s, m, stage);
    forall sh | sh in w.shells ensures Stands(after.views[sh], w, Destroy(s, m, stage), sh.actor) {
      assert Stands(before.views[sh], w, s, sh.actor);
      DestroyStands(before.views[sh], w, s, m, stage, sh.actor);
    }
  }

  /** A parcel is dropped: the reply sender or the closure goes with it. */
  method DropParcel(p: Parcel, ghost w: World, ghost s: System, ghost m: MsgId, ghost stage: Stage)
    requires w.Is(s) && Rooted(s, m) && ParcelIs(p, w, s, m)
    modifies if p.path.ToMailbox? then {p.path.recipient} else {}
    modifies if p.path.ToCaller? then {p.path.reply} else {}
    ensures w.Is(Destroy(s, m, stage))
  {
    hide Destroy, AllStand, CellsStand, World.Separate, Rooted;
    ghost var before := w.Look();
    match p.path {
      case DiscardIt =>
      case ToMailbox(recipient, _) => recipient.strong := recipient.strong - 1;
      case ToCaller(reply) => reply.cell := Broken;
    }
    DestroyShows(before, w.Look(), w, s, p, m, stage);
  }

  /** The next thing a closed receiver does: it drops its oldest parcel. */
  method DropOldest(c: Channel, ghost w: World, ghost s: System, ghost shell: Shell)
    requires w.Is(s) && LoopEnabled(s, c.actor, QueueDropped(c.role))
    requires shell in w.shells && c.role in shell.channels && shell.channels[c.role] == c
    modifies c`queue
    modifies if c.queue != [] && c.queue[0].path.ToMailbox? then {c.queue[0].path.recipient} else {}
    modifies if c.queue != [] && c.queue[0].path.ToCaller? then {c.queue[0].path.reply} else {}
    ensures w.Is(ApplyLoop(s, c.actor, QueueDropped(c.role)))
  {
    hide LoopEnabled, ApplyLoop, AllStand, Shorter, Holds, ParcelIs, DropFront, Destroy;
    ghost var before := w.Look();
    ghost var q := DroppedFrom(s, c.actor, c.role);
    StandsFor(before, w, s, shell, c.role);
    assert before.views[shell].mail[c.role].queue == c.queue;
    HoldsOneLess(c.queue, q, w, s);
    ghost var t := AfterDropped(s, c.actor, c.role);
    DroppedPopped(s, c.actor, c.role);
    var p := c.Take(w, shell);
    PoppedShows(before, w.Look(), w, s, t, shell, c.role);
    ParcelStill(p, w, s, t, q[0]);
    DropParcel(p, w, t, q[0], Discarded);
  }

  /** A handler panics: the parcel it was called with is dropped. */
  method DropInPanic(p: Parcel, st: UserState, ghost w: World, ghost s: System, ghost a: ActorId)
    requires w.Is(s) && HandlerEnabled(s, a, Panics(st)) && ParcelIs(p, w, s, s.actors[a].phase.msg)
    modifies if p.path.ToMailbox? then {p.path.recipient} else {}
    modifies if p.path.ToCaller? then {p.path.reply} else {}
    ensures w.Is(ApplyHandler(s, a, Panics(st)))
  {
    hide Shows, Destroy, World.Separate;
    ghost var t := SetActor(s, a, Crash(s.actors[a], st));
    SameShows(w.Look(), w, s, t);
    DropParcel(p, w, t, s.actors[a].phase.msg, Crashed);
  }

  lemma ParcelStill(p: Parcel, w: World, s: System, t: System, m: MsgId)
    requires ParcelIs(p, w, s, m) && SameParcels(s, t)
    ensures ParcelIs(p, w, t, m)
  {}

  ghost function DroppedFrom(s: System, a: ActorId, r: RoleId): seq<MsgId>
    requires LoopEnabled(s, a, QueueDropped(r))
  {
    s.actors[a].lanes[r].queue
  }

  /** The state in which the oldest message is out of the mailbox, but not yet destroyed. */
  ghost function AfterDropped(s: System, a: ActorId, r: RoleId): System
    requires LoopEnabled(s, a, QueueDropped(r))
  {
    SetActor(s, a, DropFront(s.actors[a], r))
  }

  lemma DroppedPopped(s: System, a: ActorId, r: RoleId)
    requires LoopEnabled(s, a, QueueDropped(r))
    ensures Exists(s, a, r) && DroppedFrom(s, a, r) == s.actors[a].lanes[r].queue != []
    ensures Popped(s, AfterDropped(s, a, r), a, r) && SameParcels(s, AfterDropped(s, a, r))
    ensures Rooted(AfterDropped(s, a, r), DroppedFrom(s, a, r)[0])
    ensures ApplyLoop(s, a, QueueDropped(r))
         == Destroy(AfterDropped(s, a, r), DroppedFrom(s, a, r)[0], Discarded)
  {}

  /** stop or catch has returned: every receiver closes. */
  method Close(shell: Shell, ghost w: World, ghost s: System)
    requires w.Is(s) && shell in w.shells && LoopEnabled(s, shell.actor, HookReturned)
    modifies shell.channels.Values
    ensures w.Is(ApplyLoop(s, shell.actor, HookReturned))
    ensures forall r <- shell.channels ::
              !shell.channels[r].open && shell.channels[r].queue == old(shell.channels[r].queue)
  {
    hide Stands;
    ghost var before := w.Look();
    forall r | r in shell.channels { shell.channels[r].open := false; }
    ghost var t := ApplyLoop(s, shell.actor, HookReturned);
    forall sh | sh in w.shells ensures Stands(w.Look().views[sh], w, t, sh.actor) {
      assert Stands(before.views[sh], w, s, sh.actor);
      ClosedStands(before.views[sh], w, s, shell.actor, sh.actor);
      assert sh.Look().mail == Closed(before.views[sh], sh == shell).mail;
    }
  }

  function Closed(v: View, here: bool): View {
    if here then v.(mail := map r | r in v.mail :: Box(false, v.mail[r].queue)) else v
  }

  lemma ClosedStands(v: View, w: World, s: System, a: ActorId, b: ActorId)
    requires Stands(v, w, s, b) && LoopEnabled(s, a, HookReturned)
    ensures Stands(Closed(v, b == a), w, ApplyLoop(s, a, HookReturned), b)
  {
    hide Holds, ParcelIs;
    var t := ApplyLoop(s, a, HookReturned);
    forall r | r in v.mail ensures Holds(v.mail[r].queue, s.actors[b].lanes[r].queue, w, t) {
      HoldsStill(v.mail[r].queue, s.actors[b].lanes[r].queue, w, s, t);
    }
  }

  // ---- what nobody else sees ----

  /** Steps that concern only their own task. */
  predicate Unseen(e: Event) {
    e.Tick?
    || (e.Handler? && (e.h.StopCalled? || e.h.Awaits? || e.h.Resumes? || e.h.Returned?))
    || (e.Loop? && (e.l.FirstPolled? || e.l.ReadGuards? || e.l.TimerFired?))
  }

  lemma UnseenHandler(s: System, a: ActorId, h: HandlerEvent)
    requires HandlerEnabled(s, a, h) && (h.StopCalled? || h.Awaits? || h.Resumes? || h.Returned?)
    ensures var t := ApplyHandler(s, a, h); SameShells(s, t) && SameParcels(s, t) && SameCells(s, t)
  {}

  lemma UnseenLoop(s: System, a: ActorId, l: LoopEvent)
    requires LoopEnabled(s, a, l) && (l.FirstPolled? || l.ReadGuards? || l.TimerFired?)
    ensures var t := ApplyLoop(s, a, l); SameShells(s, t) && SameParcels(s, t) && SameCells(s, t)
  {}

  lemma UnseenStep(w: World, s: System, e: Event)
    requires w.Is(s) && Enabled(s, e) && Unseen(e)
    ensures w.Is(Apply(s, e))
  {
    hide Shows, HandlerEnabled, ApplyHandler, LoopEnabled, ApplyLoop;
    if e.Handler? { UnseenHandler(s, e.a, e.h); }
    if e.Loop? { UnseenLoop(s, e.a, e.l); }
    SameShows(w.Look(), w, s, Apply(s, e));
  }

  // ---- start ----

  /** Nothing has been started. */
  lemma NothingYet(s: System)
    requires Initial(s)
    ensures World({}, map[]).Is(s)
  {}

  method NewChannels(roles: set<RoleId>, ghost a: ActorId) returns (channels: map<RoleId, Channel>)
    ensures channels.Keys == roles
    ensures forall r <- roles ::
              var c := channels[r]; fresh(c) && c.actor == a && c.role == r && c.queue == [] && c.open
  {
    channels := map[];
    var todo := roles;
    while todo != {}
      invariant channels.Keys + todo == roles && channels.Keys !! todo
      invariant forall r <- channels ::
                  var c := channels[r]; fresh(c) && c.actor == a && c.role == r && c.queue == [] && c.open
      decreases todo
    {
      var r :| r in todo;
      var c := new Channel(a, r);
      channels := channels[r := c];
      todo := todo - {r};
    }
  }

  /** start: one channel for each role, and a shell with two handles, one of them for the Context. */
  method Start(roles: set<RoleId>, ghost w: World, ghost s: System, ghost a: ActorId, ghost init: UserState)
    returns (shell: Shell, ghost w2: World)
    requires w.Is(s) && HandleEnabled(s, HandleEvent.Start(a, roles, init))
    ensures fresh(shell) && shell.actor == a && shell.Owns() && shell.strong == 2
    ensures shell.channels.Keys == roles
    ensures forall r <- roles :: fresh(shell.channels[r]) && shell.channels[r].queue == []
    ensures w2 == World(w.shells + {shell}, w.replies) && w2.Is(ApplyHandle(s, HandleEvent.Start(a, roles, init)))
  {
    hide AllStand, CellsStand, HandleEnabled, ApplyHandle;
    ghost var before := w.Look();
    var channels := NewChannels(roles, a);
    shell := new Shell(channels, a);
    shell.strong := shell.strong + 1;
    w2 := World(w.shells + {shell}, w.replies);
    assert shell.Look().mail == map r | r in roles :: Box(true, []);
    StartShows(w, before, s, shell, roles, init, w2, shell.Look());
    assert w2.Look() == Sight(before.views[shell := shell.Look()], before.cells);
  }

  lemma StartShows(w: World, k: Sight, s: System, shell: Shell, roles: set<RoleId>, init: UserState, w2: World, v: View)
    requires Shows(k, w, s) && k.views.Keys == w.shells && HandleEnabled(s, HandleEvent.Start(shell.actor, roles, init))
    requires w2 == World(w.shells + {shell}, w.replies)
    requires v == View(2, map r | r in roles :: Box(true, []))
    ensures Shows(Sight(k.views[shell := v], k.cells), w2, ApplyHandle(s, HandleEvent.Start(shell.actor, roles, init)))
    ensures forall sh <- w.shells :: sh.actor != shell.actor
  {
    var t := ApplyHandle(s, HandleEvent.Start(shell.actor, roles, init));
    assert Stands(v, w2, t, shell.actor);
    forall sh | sh in w.shells ensures sh.actor != shell.actor { assert Stands(k.views[sh], w, s, sh.actor); }
    hide Stands;
    WiderShows(k, w, w2, s);
    SameShows(k, w2, s, t);
  }
}
