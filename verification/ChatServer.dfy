/** The chat server's state and handlers, as the code writes them. */
module ChatServer {
  import opened Chat

  /** What reaches the server's MsgRelay mailbox. */
  datatype Request = SendMsg(sender: UserId, text: Line) | ClientLeaves(id: UserId)

  /**
   * One step of the server's loop: what reached its two mailboxes since the last one, which of them it takes from if
   * both have something, and for a new client the ids the shared counter gave to others meanwhile and what reached the
   * MsgRelay mailbox after the client was started and before it was inserted.
   */
  datatype Turn = Turn(arrivals: seq<Request>, clients: seq<Client>, listens: bool, taken: nat, early: seq<Request>)

  /** A request taken out of its mailbox, and how much had been broadcast then. */
  datatype Taken = Taken(request: Request, at: nat)

  /** A client taken out of its mailbox, the id it got, and how much had been broadcast then. */
  datatype Join = Join(id: UserId, client: Client, at: nat)

  function Requests(taken: seq<Taken>): seq<Request> {
    seq(|taken|, i requires 0 <= i < |taken| => taken[i].request)
  }

  function Clients(joins: seq<Join>): seq<Client> {
    seq(|joins|, i requires 0 <= i < |joins| => joins[i].client)
  }

  /** A client that was started may leave at any time; one that was not has no exit handle to yield. */
  function Sendable(requests: seq<Request>, started: set<UserId>): seq<Request> {
    if requests == [] then []
    else
      (if requests[0].ClientLeaves? && requests[0].id !in started then [] else [requests[0]])
      + Sendable(requests[1..], started)
  }

  lemma {:induction false} SendableStarted(requests: seq<Request>, started: set<UserId>)
    ensures forall r <- Sendable(requests, started) :: r.ClientLeaves? ==> r.id in started
  {
    if requests != [] { SendableStarted(requests[1..], started); }
  }

  /** The rounds of a run so far, and the failed clients of a sweep that are still to be removed. */
  ghost predicate Sweeping(users: set<UserId>, rs: seq<Round>, rest: set<UserId>, pending: seq<UserId>) {
    && Sweep(users, rs, rest)
    && (forall id <- AllGone(rs) :: Fails(rs, id))
    && (forall id <- rest :: Fails(rs, id) ==> id in pending)
    && (forall id <- pending :: Fails(rs, id))
  }

  lemma SweepingConcat(users: set<UserId>, rs: seq<Round>, mid: set<UserId>, pending: seq<UserId>,
                       ss: seq<Round>, rest: set<UserId>)
    requires Sweeping(users, rs, mid, pending) && pending != [] && pending[0] in mid
    requires Sweep(mid - {pending[0]}, ss, rest) && Complete(ss) && ss[0].note == Left(pending[0])
    ensures Sweeping(users, rs + ss, rest, pending[1..])
  {
    SweepConcat(users, rs, mid, pending[0], ss, rest);
    forall id: UserId ensures Fails(rs + ss, id) <==> Fails(rs, id) || Fails(ss, id) { FailsConcat(rs, ss, id); }
    forall id | id in rest && Fails(rs + ss, id) ensures id in pending[1..] {
      SurvivorsFailedNothing(mid - {pending[0]}, ss, rest, id);
    }
  }

  /** A failed client that a nested broadcast has already removed. */
  lemma SweepingSkip(users: set<UserId>, rs: seq<Round>, rest: set<UserId>, pending: seq<UserId>)
    requires Sweeping(users, rs, rest, pending) && pending != [] && pending[0] !in rest
    ensures Sweeping(users, rs, rest, pending[1..])
  {}

  lemma SweepingDone(users: set<UserId>, rs: seq<Round>, rest: set<UserId>)
    requires Sweeping(users, rs, rest, [])
    ensures Sweep(users, rs, rest) && Complete(rs)
  {
    forall id | Fails(rs, id) ensures id in AllGone(rs) { FailsInUsers(users, rs, rest, id); }
  }

  lemma NothingSent(note: Note)
    ensures EachOnce(Round(note, [])) && Audience(Round(note, [])) == {}
    ensures forall id :: !FailsIn(Round(note, []), id)
  {}

  /** A round with one more send, to a client not sent to before. */
  lemma OneMoreSent(r: Round, dead: seq<UserId>, id: UserId, ok: bool)
    requires EachOnce(r) && id !in Audience(r) && forall d :: d in dead <==> FailsIn(r, d)
    ensures var t := Round(r.note, r.sends + [Delivery(id, ok)]);
            && EachOnce(t) && Audience(t) == Audience(r) + {id}
            && forall d :: d in (if ok then dead else dead + [id]) <==> FailsIn(t, d)
  {
    var t := Round(r.note, r.sends + [Delivery(id, ok)]);
    forall k | 0 <= k < |r.sends| ensures r.sends[k].to != id { assert r.sends[k].to in Audience(r); }
    assert forall d: Delivery :: d in t.sends <==> d in r.sends || d == Delivery(id, ok);
  }

  /** The first round of a sweep, once every client was sent to. */
  lemma FirstRound(users: set<UserId>, r: Round, dead: seq<UserId>)
    requires EachOnce(r) && Audience(r) == users
    requires forall id :: id in dead <==> FailsIn(r, id)
    ensures Sweeping(users, [r], users, dead)
  {
    assert AllGone([r]) == {};
    assert r in [r];
  }

  lemma CardinalityLe(a: set<UserId>, b: set<UserId>)
    requires a <= b
    ensures |a| <= |b|
  {
    assert b == a + (b - a);
  }

  lemma Grew(before: seq<Round>, wire: seq<Round>)
    requires before <= wire
    ensures wire == before + wire[|before|..]
  {}

  /** A client announced once stays announced once. */
  lemma StartedStay(before: seq<Round>, rs: seq<Round>, users: set<UserId>, next: nat)
    requires HistoryOk(before + rs, users, next)
    ensures forall id: UserId :: Announced(before, Joined(id)) == 1 ==> Announced(before + rs, Joined(id)) == 1
  {
    forall id: UserId | Announced(before, Joined(id)) == 1 ensures Announced(before + rs, Joined(id)) == 1 {
      AnnouncedConcat(before, rs, Joined(id));
    }
  }

  /** An id that was not handed out is of no client, past or present. */
  lemma NewId(wire: seq<Round>, users: set<UserId>, next: nat, id: UserId)
    requires HistoryOk(wire, users, next) && next <= id
    ensures id !in users && Announced(wire, Joined(id)) == 0
  {}

  /** Whoever was announced and is no user has been announced as gone, once. */
  lemma Departed(before: seq<Round>, wire: seq<Round>, users: set<UserId>, next: nat, id: UserId)
    requires HistoryOk(wire, users, next) && before <= wire && id !in users
    ensures Announced(before, Joined(id)) > 0 ==> Announced(wire, Left(id)) == 1
  {
    AnnouncedPrefix(wire, |before|, Joined(id));
    assert wire[..|before|] == before;
  }

  lemma JoinedOnce(before: seq<Round>, rs: seq<Round>, all: set<UserId>, rest: set<UserId>, id: UserId)
    requires Sweep(all + {id}, rs, rest) && rs[0].note == Joined(id) && Announced(before, Joined(id)) == 0
    ensures Announced(before + rs, Joined(id)) == 1
  {
    SweepAnnounces(all + {id}, rs, rest, Joined(id));
    AnnouncedConcat(before, rs, Joined(id));
  }

  class ServerState {
    var users: map<UserId, Client>
    var nextId: UserId              // ID_COUNTER
    var wire: seq<Round>            // the console and the sends: everything broadcast so far
    var relay: seq<Request>         // the MsgRelay mailbox
    var incoming: seq<Client>       // the NetListener mailbox
    var started: set<UserId>        // clients started so far: those with an exit handle that may yield
    ghost var arrived: seq<Request>   // all that ever reached the MsgRelay mailbox
    ghost var connected: seq<Client>  // all that ever reached the NetListener mailbox
    ghost var taken: seq<Taken>       // the requests taken out
    ghost var joins: seq<Join>        // the clients taken out

    /** Nobody leaves who was not started. */
    ghost predicate LeavesStarted()
      reads this
    {
      forall r <- relay :: r.ClientLeaves? ==> r.id in started
    }

    /** A leave request taken out came after the client's arrival had been announced. */
    ghost predicate LeavesJoined()
      reads this
    {
      forall t <- taken :: t.request.ClientLeaves? ==>
        t.at <= |wire| && Announced(wire[..t.at], Joined(t.request.id)) == 1
    }

    /** Both mailboxes are served in order, and nothing is lost. */
    ghost predicate InOrder()
      reads this
    {
      arrived == Requests(taken) + relay && connected == Clients(joins) + incoming
    }

    ghost predicate Valid()
      reads this
    {
      && HistoryOk(wire, users.Keys, nextId) && LeavesStarted() && LeavesJoined() && InOrder()
      && forall id <- started :: Announced(wire, Joined(id)) == 1
    }

    /** Every request and every client taken out was dealt with. */
    ghost predicate Served()
      reads this
    {
      AllCarriedOut(wire, users, taken) && AllJoined(wire, users, joins)
    }

    constructor ()
      ensures Valid() && Served() && users == map[] && wire == [] && nextId == 1 && taken == [] && joins == []
    {
      users, nextId, wire := map[], 1, [];
      relay, incoming, started, arrived, connected, taken, joins := [], [], {}, [], [], [], [];
    }

    /** Other tasks put messages into the MsgRelay mailbox. */
    method Arrive(requests: seq<Request>)
      requires LeavesStarted()
      modifies this`relay, this`arrived
      ensures LeavesStarted() && relay == old(relay) + Sendable(requests, started)
      ensures arrived == old(arrived) + Sendable(requests, started)
    {
      SendableStarted(requests, started);
      relay := relay + Sendable(requests, started);
      arrived := arrived + Sendable(requests, started);
    }

    /** Clients connect. */
    method Connect(clients: seq<Client>)
      modifies this`incoming, this`connected
      ensures incoming == old(incoming) + clients && connected == old(connected) + clients
    {
      incoming := incoming + clients;
      connected := connected + clients;
    }

    /** The oldest request is taken out. A leave request is always that of a client whose arrival was announced. */
    method Next() returns (r: Request)
      requires Valid() && relay != []
      modifies this`relay, this`taken
      ensures Valid() && r == old(relay)[0] && relay == old(relay)[1..]
      ensures taken == old(taken) + [Taken(r, |wire|)]
      ensures r.ClientLeaves? ==> Announced(wire, Joined(r.id)) == 1
    {
      r := relay[0];
      assert r in relay;
      relay := relay[1..];
      taken := taken + [Taken(r, |wire|)];
      assert wire[..|wire|] == wire;
    }

    /** One round: the note goes once to every client, in the map's own order; the failed ones are collected. */
    method SendToAll(note: Note, answers: Oracle) returns (dead: seq<UserId>)
      modifies this`wire
      ensures |wire| == |old(wire)| + 1 && wire[..|old(wire)|] == old(wire)
      ensures var r := wire[|old(wire)|];
              r.note == note && EachOnce(r) && Audience(r) == users.Keys
              && (forall id :: id in dead <==> FailsIn(r, id)) && Answered(old(wire), r, answers)
    {
      hide Answered, EachOnce, Audience, FailsIn;
      var n := |wire|;
      var before := wire;
      ghost var r := Round(note, []);
      wire := wire + [Round(note, [])];
      AnsweredNothing(before, note, answers);
      NothingSent(note);
      dead := [];
      var todo := users.Keys;
      while todo != {}
        invariant |wire| == n + 1 && wire == before + [r] && r.note == note
        invariant todo <= users.Keys && EachOnce(r) && Audience(r) == users.Keys - todo
        invariant forall id :: id in dead <==> FailsIn(r, id)
        invariant Answered(before, r, answers)
        decreases todo
      {
        var id :| id in todo;
        var ok := answers(wire, id);
        AnsweredOneMore(before, r, answers, id);
        OneMoreSent(r, dead, id, ok);
        r := Round(note, r.sends + [Delivery(id, ok)]);
        wire := wire[n := Round(note, wire[n].sends + [Delivery(id, ok)])];
        if !ok { dead := dead + [id]; }
        todo := todo - {id};
      }
    }

    /**
     * The clients left are exactly those no send failed to; each of the others was announced as gone once, in a
     * round of its own that went to every client not yet gone.
     */
    method Broadcast(note: Note, answers: Oracle)
      modifies this`users, this`wire
      decreases |users|, 1
      ensures old(wire) <= wire
      ensures var rs := wire[|old(wire)|..];
              rs != [] && rs[0].note == note && Sweep(old(users).Keys, rs, users.Keys) && Complete(rs)
              && AllAnswered(old(wire), rs, answers)
      ensures forall id <- users :: id in old(users) && users[id] == old(users)[id]
    {
      hide Sweeping, Sweep, Complete, Audience, EachOnce, FailsIn, Answered, AllAnswered;
      ghost var before, all := wire, users;
      var dead := SendToAll(note, answers);
      var i := 0;
      ghost var rs := [wire[|before|]];
      FirstRound(users.Keys, rs[0], dead);
      AnsweredFirst(before, rs[0], answers);
      assert dead[0..] == dead;
      while i < |dead|
        invariant 0 <= i <= |dead| && rs != [] && rs[0].note == note && wire == before + rs
        invariant Sweeping(all.Keys, rs, users.Keys, dead[i..]) && AllAnswered(before, rs, answers)
        invariant users.Keys <= all.Keys && forall id <- users :: users[id] == all[id]
      {
        ghost var w, mid := wire, users.Keys;
        CardinalityLe(users.Keys, all.Keys);
        RemoveClient(dead[i], answers);
        assert dead[i..][1..] == dead[i + 1..];
        if dead[i] in mid {
          ghost var ss := wire[|w|..];
          SweepingConcat(all.Keys, rs, mid, dead[i..], ss, users.Keys);
          Grew(w, wire);
          AnsweredConcat(before, rs, ss, answers);
          rs := rs + ss;
        } else {
          SweepingSkip(all.Keys, rs, mid, dead[i..]);
        }
        i := i + 1;
      }
      assert dead[i..] == [];
      SweepingDone(all.Keys, rs, users.Keys);
    }

    /** Nothing for a client that is already gone; otherwise it is removed and its departure broadcast. */
    method RemoveClient(id: UserId, answers: Oracle)
      modifies this`users, this`wire
      decreases |users|, 0
      ensures id !in old(users) ==> users == old(users) && wire == old(wire)
      ensures id in old(users) ==>
                && old(wire) <= wire
                && var rs := wire[|old(wire)|..];
                   rs != [] && rs[0].note == Left(id)
                   && Sweep(old(users).Keys - {id}, rs, users.Keys) && Complete(rs)
                   && AllAnswered(old(wire), rs, answers)
      ensures forall u <- users :: u in old(users) && users[u] == old(users)[u]
    {
      if id in users {
        ghost var all := users.Keys;
        users := users - {id};
        assert users.Keys == all - {id};
        Broadcast(Left(id), answers);
      }
    }

    method SendMsg(sender: UserId, text: Line, answers: Oracle)
      requires Valid()
      modifies this`users, this`wire
      ensures Valid() && old(wire) <= wire
      ensures var rs := wire[|old(wire)|..];
              rs != [] && rs[0].note == Said(sender, text) && Sweep(old(users).Keys, rs, users.Keys) && Complete(rs)
              && AllAnswered(old(wire), rs, answers)
      ensures forall u <- users :: u in old(users) && users[u] == old(users)[u]
    {
      hide AllAnswered;
      ghost var before, all := wire, users.Keys;
      Broadcast(Said(sender, text), answers);
      Grew(before, wire);
      HistorySweep(before, all, nextId, all, wire[|before|..], users.Keys);
      StartedStay(before, wire[|before|..], users.Keys, nextId);
      KeepsLeaves(taken, before, wire);
    }

    /** For any id: nothing if it is of no client; afterwards it is, and if it ever was one, that it left is known. */
    method ClientLeaves(id: UserId, answers: Oracle)
      requires Valid()
      modifies this`users, this`wire
      ensures Valid() && old(wire) <= wire && id !in users
      ensures Announced(old(wire), Joined(id)) > 0 ==> Announced(wire, Left(id)) == 1
      ensures id !in old(users) ==> users == old(users) && wire == old(wire)
      ensures id in old(users) ==> wire[|old(wire)|..] != [] && wire[|old(wire)|].note == Left(id)
                                   && Sweep(old(users).Keys - {id}, wire[|old(wire)|..], users.Keys)
                                   && Complete(wire[|old(wire)|..])
                                   && AllAnswered(old(wire), wire[|old(wire)|..], answers)
      ensures forall u <- users :: u in old(users) && users[u] == old(users)[u]
    {
      hide AllAnswered, HistoryOk, Sweep, Complete;
      ghost var before, all := wire, users.Keys;
      RemoveClient(id, answers);
      if id in all {
        Grew(before, wire);
        SweepRest(all - {id}, wire[|before|..], users.Keys);
        HistorySweep(before, all, nextId, all - {id}, wire[|before|..], users.Keys);
        StartedStay(before, wire[|before|..], users.Keys, nextId);
        KeepsLeaves(taken, before, wire);
      }
      Departed(before, wire, users.Keys, nextId, id);
    }

    /**
     * A new client gets an id never used before, is started, inserted, and announced to everyone, itself included.
     * From its start on it may leave, so that its leave request can be in the mailbox before it is inserted.
     */
    method Listen(client: Client, ids: nat, early: seq<Request>, answers: Oracle)
      requires Valid()
      modifies this`users, this`wire, this`nextId, this`started, this`relay, this`arrived
      ensures Valid() && old(wire) <= wire && nextId == old(nextId) + ids + 1
      ensures var id := old(nextId) + ids; var rs := wire[|old(wire)|..];
              && id !in old(users) && Announced(old(wire), Joined(id)) == 0 && started == old(started) + {id}
              && relay == old(relay) + Sendable(early, started)
              && rs != [] && rs[0].note == Joined(id)
              && Sweep(old(users).Keys + {id}, rs, users.Keys) && Complete(rs) && AllAnswered(old(wire), rs, answers)
              && forall u <- users ::
                   if u == id then users[u] == client else u in old(users) && users[u] == old(users)[u]
    {
      hide Sweep, Complete, HistoryOk, AllAnswered, Sendable, Announced, Requests, Clients;
      ghost var before, all := wire, users.Keys;
      NewId(before, all, nextId, nextId + ids);
      var id := nextId + ids;
      nextId := id + 1;
      started := started + {id};
      Arrive(early);
      users := users[id := client];
      assert users.Keys == all + {id};
      Broadcast(Joined(id), answers);
      Grew(before, wire);
      HistoryJoin(before, all, old(nextId), id, wire[|before|..], users.Keys);
      StartedStay(before, wire[|before|..], users.Keys, nextId);
      JoinedOnce(before, wire[|before|..], all, users.Keys, id);
      KeepsLeaves(taken, before, wire);
    }

    /** The oldest request of the MsgRelay mailbox is taken out and carried out. */
    method ServeRelay(answers: Oracle)
      requires Valid() && Served() && relay != []
      modifies this`users, this`wire, this`relay, this`taken
      ensures Valid() && Served() && old(wire) <= wire
      ensures relay == old(relay)[1..] && taken == old(taken) + [Taken(old(relay)[0], |old(wire)|)]
      ensures forall u <- users :: u in old(users) && users[u] == old(users)[u]
    {
      ghost var before, all := wire, users;
      var r := Next();
      match r {
        case SendMsg(sender, text) => SendMsg(sender, text, answers);
        case ClientLeaves(id) => ClientLeaves(id, answers);
      }
      StillServed(before, wire, all, users, old(taken), joins, nextId);
    }

    /** The oldest connection of the NetListener mailbox is taken out, and its client joins. */
    method ServeListener(ids: nat, early: seq<Request>, answers: Oracle)
      requires Valid() && Served() && incoming != []
      modifies this
      ensures Valid() && Served() && old(wire) <= wire && incoming == old(incoming)[1..]
      ensures nextId == old(nextId) + ids + 1 && taken == old(taken) && connected == old(connected)
      ensures old(relay) <= relay
      ensures joins == old(joins) + [Join(old(nextId) + ids, old(incoming)[0], |old(wire)|)]
    {
      hide HistoryOk, Sweep, Complete, AllAnswered, AllCarriedOut, AllJoined, Announced, Sendable;
      ghost var before, all := wire, users;
      var client := incoming[0];
      ghost var id := nextId + ids;
      incoming := incoming[1..];
      joins := joins + [Join(id, client, |wire|)];
      assert Clients(joins) == Clients(old(joins)) + [client];
      Listen(client, ids, early, answers);
      NewlyServed(before, wire, all, users, taken, old(joins), old(nextId), nextId, id, client);
    }

    /** One step of the loop: if anything is waiting, it serves exactly one thing. */
    method Step(t: Turn, answers: Oracle)
      requires Valid() && Served()
      modifies this
      ensures Valid() && Served() && old(wire) <= wire && old(nextId) <= nextId
      ensures old(taken) <= taken && old(joins) <= joins
      ensures var served := |taken| + |joins| - |old(taken)| - |old(joins)|;
              var backlog := |old(relay)| + |old(incoming)|;
              served + |relay| + |incoming| >= backlog && served <= 1 && (backlog > 0 ==> served == 1)
    {
      hide HistoryOk, AllCarriedOut, AllJoined, Sendable;
      Arrive(t.arrivals);
      Connect(t.clients);
      if incoming != [] && (t.listens || relay == []) {
        ServeListener(t.taken, t.early, answers);
      } else if relay != [] {
        ServeRelay(answers);
      }
    }

    lemma AllLeavesJoined()
      requires Valid()
      ensures forall t <- taken :: t.request.ClientLeaves? ==>
                t.at <= |wire| && Announced(wire[..t.at], Joined(t.request.id)) == 1
    {}

    /**
     * Any run of the server: whatever arrives when, and whichever mailbox it takes from. While anything is waiting each
     * step serves something. Both mailboxes are served in
     * order and everything taken out is dealt with: each line is broadcast, each client is a user under its own new id
     * and announced, each leave request comes after that client's arrival and ends with the client gone and announced
     * once as gone. No client announced as gone is a user again.
     */
    method Serve(turns: seq<Turn>, answers: Oracle)
      requires Valid() && Served()
      modifies this
      ensures Valid() && Served() && old(wire) <= wire && old(nextId) <= nextId
      ensures old(taken) <= taken && old(joins) <= joins
      ensures var backlog := |old(relay)| + |old(incoming)|;
              |taken| + |joins| >= |old(taken)| + |old(joins)| + if |turns| < backlog then |turns| else backlog
      ensures forall t <- taken :: t.request.ClientLeaves? ==>
                t.at <= |wire| && Announced(wire[..t.at], Joined(t.request.id)) == 1
      ensures forall id <- users :: Announced(old(wire), Left(id)) == 0
    {
      hide HistoryOk, AllCarriedOut, AllJoined, LeavesStarted, LeavesJoined, InOrder;
      ghost var before := wire;
      for i := 0 to |turns|
        invariant Valid() && Served() && old(wire) <= wire && old(nextId) <= nextId
        invariant old(taken) <= taken && old(joins) <= joins
        invariant var served := |taken| + |joins| - |old(taken)| - |old(joins)|;
                  var backlog := |old(relay)| + |old(incoming)|;
                  served + |relay| + |incoming| >= backlog && (served >= i || served >= backlog)
      {
        Step(turns[i], answers);
      }
      AllLeavesJoined();
      forall id | id in users ensures Announced(before, Left(id)) == 0 {
        if Announced(before, Left(id)) > 0 { GoneForGood(before, wire, users.Keys, nextId, id); }
      }
    }
  }

  /** What had been broadcast at some time stays what had been broadcast then. */
  lemma KeepsLeaves(taken: seq<Taken>, before: seq<Round>, wire: seq<Round>)
    requires before <= wire
    ensures forall t <- taken :: t.at <= |before| ==> wire[..t.at] == before[..t.at]
  {}

  // ---- everything taken out is dealt with ----

  /** The request was carried out: the line was broadcast next, or the client is gone and was announced as gone once. */
  ghost predicate CarriedOut(wire: seq<Round>, users: map<UserId, Client>, t: Taken) {
    match t.request
    case SendMsg(sender, text) => t.at < |wire| && wire[t.at].note == Said(sender, text)
    case ClientLeaves(id) => id !in users && Announced(wire, Left(id)) == 1
  }

  ghost predicate AllCarriedOut(wire: seq<Round>, users: map<UserId, Client>, taken: seq<Taken>) {
    forall t <- taken :: CarriedOut(wire, users, t)
  }

  /** The client was announced next, and is the one found under its id, if any is. */
  ghost predicate DidJoin(wire: seq<Round>, users: map<UserId, Client>, j: Join) {
    j.at < |wire| && wire[j.at].note == Joined(j.id) && (j.id in users ==> users[j.id] == j.client)
  }

  /** The clients taken out joined, and no user came otherwise. */
  ghost predicate AllJoined(wire: seq<Round>, users: map<UserId, Client>, joins: seq<Join>) {
    && (forall j <- joins :: DidJoin(wire, users, j))
    && (forall id <- users :: exists j <- joins :: j.id == id)
  }

  /** A sweep undoes nothing that was done before. */
  lemma StillServed(before: seq<Round>, wire: seq<Round>, all: map<UserId, Client>, users: map<UserId, Client>,
                    taken: seq<Taken>, joins: seq<Join>, next: nat)
    requires AllCarriedOut(before, all, taken) && AllJoined(before, all, joins) && before <= wire
    requires HistoryOk(wire, users.Keys, next)
    requires forall u <- users :: u in all && users[u] == all[u]
    ensures AllCarriedOut(wire, users, taken) && AllJoined(wire, users, joins)
  {
    forall t | t in taken ensures CarriedOut(wire, users, t) {
      assert CarriedOut(before, all, t);
      if t.request.ClientLeaves? { GoneForGood(before, wire, users.Keys, next, t.request.id); }
    }
    forall j | j in joins ensures DidJoin(wire, users, j) { assert DidJoin(before, all, j); }
  }

  /** Nor does the arrival of a client under a new id. */
  lemma NewlyServed(before: seq<Round>, wire: seq<Round>, all: map<UserId, Client>, users: map<UserId, Client>,
                    taken: seq<Taken>, joins: seq<Join>, last: nat, next: nat, id: UserId, client: Client)
    requires AllCarriedOut(before, all, taken) && AllJoined(before, all, joins) && before < wire
    requires HistoryOk(before, all.Keys, last) && HistoryOk(wire, users.Keys, next) && last <= id
    requires wire[|before|].note == Joined(id)
    requires forall u <- users :: if u == id then users[u] == client else u in all && users[u] == all[u]
    ensures AllCarriedOut(wire, users, taken)
    ensures AllJoined(wire, users, joins + [Join(id, client, |before|)])
  {
    var js := joins + [Join(id, client, |before|)];
    forall t | t in taken ensures CarriedOut(wire, users, t) {
      assert CarriedOut(before, all, t);
      if t.request.ClientLeaves? { GoneForGood(before, wire, users.Keys, next, t.request.id); }
    }
    forall j | j in js ensures DidJoin(wire, users, j) {
      if j in joins {
        assert DidJoin(before, all, j);
        AnnouncedAt(before, j.at);
        assert Announced(before, Joined(j.id)) > 0;
      }
    }
    forall u | u in users ensures exists j <- js :: j.id == u {
      if u == id {
        assert js[|joins|] in js;
      } else {
        var j :| j in joins && j.id == u;
        assert j in js;
      }
    }
  }

  lemma AnnouncedAt(wire: seq<Round>, k: nat)
    requires k < |wire|
    ensures Announced(wire, wire[k].note) > 0
  {
    AnnouncedPrefix(wire, k + 1, wire[k].note);
    assert wire[..k + 1][..k] == wire[..k];
  }
}
