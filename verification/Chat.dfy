/** The chat server of the example: its recursive sweep of dead clients, and whole runs of its handlers. */
module Chat {
  type UserId = nat
  type Line(==, !new)
  type Client(==, !new)

  datatype Note = Said(sender: UserId, text: Line) | Joined(id: UserId) | Left(id: UserId)

  /** One call of send_out, and whether both layers of its result were Ok. */
  datatype Delivery = Delivery(to: UserId, ok: bool)

  /** One broadcast: what it announced and the sends it made. */
  datatype Round = Round(note: Note, sends: seq<Delivery>)

  /** Whether the next send to a client succeeds; it may depend on everything that happened before. */
  type Oracle = (seq<Round>, UserId) -> bool

  // ---- what a sweep is ----

  function Audience(r: Round): set<UserId> {
    set s <- r.sends :: s.to
  }

  predicate EachOnce(r: Round) {
    forall i, j :: 0 <= i < j < |r.sends| ==> r.sends[i].to != r.sends[j].to
  }

  predicate FailsIn(r: Round, id: UserId) {
    Delivery(id, false) in r.sends
  }

  /** Some send to id failed. */
  predicate Fails(rs: seq<Round>, id: UserId) {
    exists r <- rs :: FailsIn(r, id)
  }

  /** The clients announced as gone by rounds 1 to k. */
  function Gone(rs: seq<Round>, k: nat): set<UserId>
    requires k < |rs|
  {
    set j | 1 <= j <= k && rs[j].note.Left? :: rs[j].note.id
  }

  function AllGone(rs: seq<Round>): set<UserId>
    requires rs != []
  {
    Gone(rs, |rs| - 1)
  }

  /**
   * The rounds of a sweep that starts with `users` and ends with `rest`: every round after the first announces
   * one departure, each departed client is announced once, and round k goes once to each client that was not
   * announced as gone by then.
   */
  ghost predicate Sweep(users: set<UserId>, rs: seq<Round>, rest: set<UserId>) {
    && rs != []
    && (forall k :: 1 <= k < |rs| ==> rs[k].note.Left? && rs[k].note.id in users)
    && (forall j, k :: 1 <= j < k < |rs| ==> rs[j].note != rs[k].note)
    && (forall k :: 0 <= k < |rs| ==> EachOnce(rs[k]) && Audience(rs[k]) == users - Gone(rs, k))
    && rest == users - AllGone(rs)
  }

  /** A sweep in which exactly the clients that failed a send are gone. */
  ghost predicate Complete(rs: seq<Round>)
    requires rs != []
  {
    forall id :: id in AllGone(rs) <==> Fails(rs, id)
  }

  function TotalSends(rs: seq<Round>): nat {
    if rs == [] then 0 else TotalSends(rs[..|rs| - 1]) + |rs[|rs| - 1].sends|
  }

  // ---- its cost ----

  lemma {:induction false} AudienceSize(sends: seq<Delivery>)
    requires forall i, j :: 0 <= i < j < |sends| ==> sends[i].to != sends[j].to
    ensures |set s <- sends :: s.to| == |sends|
  {
    if sends != [] {
      var front, last := sends[..|sends| - 1], sends[|sends| - 1];
      AudienceSize(front);
      assert (set s <- sends :: s.to) == (set s <- front :: s.to) + {last.to};
    }
  }

  /** Round k announces one more client, for the first time. */
  lemma GoneNext(users: set<UserId>, rs: seq<Round>, rest: set<UserId>, k: nat)
    requires Sweep(users, rs, rest) && 1 <= k < |rs|
    ensures rs[k].note.Left? && rs[k].note.id in users && rs[k].note.id !in Gone(rs, k - 1)
    ensures Gone(rs, k) == Gone(rs, k - 1) + {rs[k].note.id}
  {}

  lemma {:induction false} GoneSize(users: set<UserId>, rs: seq<Round>, rest: set<UserId>, k: nat)
    requires Sweep(users, rs, rest) && k < |rs|
    ensures |Gone(rs, k)| == k && Gone(rs, k) <= users
  {
    hide Sweep;
    if k == 0 {
      assert Gone(rs, k) == {};
    } else {
      GoneSize(users, rs, rest, k - 1);
      GoneNext(users, rs, rest, k);
    }
  }

  /** Round k makes exactly n - k sends. */
  lemma RoundSize(users: set<UserId>, rs: seq<Round>, rest: set<UserId>, k: nat)
    requires Sweep(users, rs, rest) && k < |rs|
    ensures |rs[k].sends| == |users| - k
  {
    AudienceSize(rs[k].sends);
    GoneSize(users, rs, rest, k);
    assert |users - Gone(rs, k)| == |users| - |Gone(rs, k)|;
  }

  lemma {:induction false} PrefixCost(users: set<UserId>, rs: seq<Round>, rest: set<UserId>, k: nat)
    requires Sweep(users, rs, rest) && k <= |rs|
    ensures 2 * TotalSends(rs[..k]) == k * (2 * |users| - k + 1)
  {
    if k > 0 {
      PrefixCost(users, rs, rest, k - 1);
      RoundSize(users, rs, rest, k - 1);
      assert rs[..k][..k - 1] == rs[..k - 1];
    }
  }

  /** One broadcast more than clients removed. */
  lemma RoundCount(users: set<UserId>, rs: seq<Round>, rest: set<UserId>)
    requires Sweep(users, rs, rest)
    ensures rest <= users && |rs| == |users| - |rest| + 1
  {
    GoneSize(users, rs, rest, |rs| - 1);
    assert |users - AllGone(rs)| == |users| - |AllGone(rs)|;
  }

  /** A sweep over n clients that ends up removing r makes r + 1 broadcasts and (r + 1)(2n - r) / 2 sends. */
  lemma SweepCost(users: set<UserId>, rs: seq<Round>, rest: set<UserId>)
    requires Sweep(users, rs, rest)
    ensures var n, r := |users|, |users| - |rest|;
            |rs| == r + 1 && 2 * TotalSends(rs) == (r + 1) * (2 * n - r)
  {
    hide Sweep;
    RoundCount(users, rs, rest);
    PrefixCost(users, rs, rest, |rs|);
    assert rs[..|rs|] == rs;
  }

  // ---- sweeps compose ----

  lemma GoneConcat(rs: seq<Round>, ss: seq<Round>, k: nat)
    requires rs != [] && k < |ss| && ss[0].note.Left?
    ensures Gone(rs + ss, |rs| + k) == AllGone(rs) + {ss[0].note.id} + Gone(ss, k)
  {
    var ts := rs + ss;
    forall id | id in Gone(ss, k) ensures id in Gone(ts, |rs| + k) {
      var j :| 1 <= j <= k && ss[j].note.Left? && ss[j].note.id == id;
      assert ts[|rs| + j] == ss[j];
    }
    assert ts[|rs|] == ss[0];
    forall id | id in AllGone(rs) ensures id in Gone(ts, |rs| + k) {
      var j :| 1 <= j <= |rs| - 1 && rs[j].note.Left? && rs[j].note.id == id;
      assert ts[j] == rs[j];
    }
  }

  lemma GonePrefix(rs: seq<Round>, ss: seq<Round>, k: nat)
    requires k < |rs|
    ensures Gone(rs + ss, k) == Gone(rs, k)
  {
    assert forall j :: 0 <= j <= k ==> (rs + ss)[j] == rs[j];
  }

  /** Removing a client that is still present continues the sweep. */
  lemma SweepConcat(users: set<UserId>, rs: seq<Round>, mid: set<UserId>, d: UserId, ss: seq<Round>, rest: set<UserId>)
    requires Sweep(users, rs, mid) && d in mid && Sweep(mid - {d}, ss, rest) && ss[0].note == Left(d)
    ensures Sweep(users, rs + ss, rest)
    ensures AllGone(rs + ss) == AllGone(rs) + {d} + AllGone(ss)
  {
    hide Gone, EachOnce, Audience;
    var ts := rs + ss;
    GoneConcat(rs, ss, |ss| - 1);
    forall k | 0 <= k < |ts|
      ensures EachOnce(ts[k]) && Audience(ts[k]) == users - Gone(ts, k)
      ensures k >= 1 ==> ts[k].note.Left? && ts[k].note.id in users
    {
      RoundConcat(users, rs, mid, d, ss, rest, k);
    }
    forall j, k | 1 <= j < k < |ts| ensures ts[j].note != ts[k].note {
      NotesDiffer(users, rs, mid, d, ss, rest, j, k);
    }
  }

  lemma RoundConcat(users: set<UserId>, rs: seq<Round>, mid: set<UserId>, d: UserId, ss: seq<Round>, rest: set<UserId>,
                    k: nat)
    requires Sweep(users, rs, mid) && d in mid && Sweep(mid - {d}, ss, rest) && ss[0].note == Left(d)
    requires k < |rs + ss|
    ensures var ts := rs + ss;
            EachOnce(ts[k]) && Audience(ts[k]) == users - Gone(ts, k)
            && (k >= 1 ==> ts[k].note.Left? && ts[k].note.id in users)
  {
    hide Gone, EachOnce, Audience;
    if k < |rs| { GonePrefix(rs, ss, k); } else { GoneConcat(rs, ss, k - |rs|); }
  }

  lemma NotesDiffer(users: set<UserId>, rs: seq<Round>, mid: set<UserId>, d: UserId, ss: seq<Round>, rest: set<UserId>,
                    j: nat, k: nat)
    requires Sweep(users, rs, mid) && d in mid && Sweep(mid - {d}, ss, rest) && ss[0].note == Left(d)
    requires 1 <= j < k < |rs + ss|
    ensures (rs + ss)[j].note != (rs + ss)[k].note
  {
    if j < |rs| <= k {
      assert rs[j].note.id in AllGone(rs);
      assert ss[k - |rs|].note.id in mid;
    } else if |rs| <= j {
      assert j > |rs| ==> ss[j - |rs|].note != ss[k - |rs|].note;
      assert ss[k - |rs|].note.id != d;
    }
  }

  lemma FailsConcat(rs: seq<Round>, ss: seq<Round>, id: UserId)
    ensures Fails(rs + ss, id) <==> Fails(rs, id) || Fails(ss, id)
  {
    assert forall r :: r in rs + ss <==> r in rs || r in ss;
  }

  /** Only a client that is in the audience can fail. */
  lemma FailsInUsers(users: set<UserId>, rs: seq<Round>, rest: set<UserId>, id: UserId)
    requires Sweep(users, rs, rest) && Fails(rs, id)
    ensures id in users
  {
    var k :| 0 <= k < |rs| && FailsIn(rs[k], id);
    assert id in Audience(rs[k]);
  }

  /** A complete sweep: the clients left are exactly those to which no send failed. */
  lemma SurvivorsFailedNothing(users: set<UserId>, rs: seq<Round>, rest: set<UserId>, id: UserId)
    requires Sweep(users, rs, rest) && Complete(rs)
    ensures id in rest <==> id in users && !Fails(rs, id)
  {}

  // ---- the answers ----

  /** Each recorded outcome of round r is the answer to that send, after everything recorded before it. */
  ghost predicate Answered(before: seq<Round>, r: Round, answers: Oracle) {
    forall k :: 0 <= k < |r.sends| ==>
      r.sends[k].ok == answers(before + [Round(r.note, r.sends[..k])], r.sends[k].to)
  }

  ghost predicate AllAnswered(before: seq<Round>, rs: seq<Round>, answers: Oracle) {
    forall j :: 0 <= j < |rs| ==> Answered(before + rs[..j], rs[j], answers)
  }

  lemma AnsweredNothing(before: seq<Round>, note: Note, answers: Oracle)
    ensures Answered(before, Round(note, []), answers)
  {}

  lemma AnsweredOneMore(before: seq<Round>, r: Round, answers: Oracle, id: UserId)
    requires Answered(before, r, answers)
    ensures Answered(before, Round(r.note, r.sends + [Delivery(id, answers(before + [r], id))]), answers)
  {
    var sends := r.sends + [Delivery(id, answers(before + [r], id))];
    forall k | 0 <= k < |sends|
      ensures sends[k].ok == answers(before + [Round(r.note, sends[..k])], sends[k].to)
    {
      if k < |r.sends| { assert sends[..k] == r.sends[..k]; } else { assert sends[..k] == r.sends; }
    }
  }

  lemma AnsweredFirst(before: seq<Round>, r: Round, answers: Oracle)
    requires Answered(before, r, answers)
    ensures AllAnswered(before, [r], answers)
  {
    assert before + [r][..0] == before;
  }

  lemma AnsweredConcat(before: seq<Round>, rs: seq<Round>, ss: seq<Round>, answers: Oracle)
    requires AllAnswered(before, rs, answers) && AllAnswered(before + rs, ss, answers)
    ensures AllAnswered(before, rs + ss, answers)
  {
    var ts := rs + ss;
    forall j | 0 <= j < |ts| ensures Answered(before + ts[..j], ts[j], answers) {
      if j < |rs| {
        assert ts[..j] == rs[..j];
      } else {
        assert before + ts[..j] == before + rs + ss[..j - |rs|];
      }
    }
  }

  /** The client did not take the k-th send of the j-th round. */
  ghost predicate Refuses(before: seq<Round>, rs: seq<Round>, answers: Oracle, id: UserId, j: nat, k: nat) {
    && j < |rs| && k < |rs[j].sends| && rs[j].sends[k].to == id
    && !answers(before + rs[..j] + [Round(rs[j].note, rs[j].sends[..k])], id)
  }

  /** A client is removed by a sweep exactly if it did not take one of the sends made to it. */
  lemma AnswersDecide(users: set<UserId>, rs: seq<Round>, rest: set<UserId>, before: seq<Round>, answers: Oracle,
                      id: UserId)
    requires Sweep(users, rs, rest) && Complete(rs) && AllAnswered(before, rs, answers)
    ensures id in rest <==> id in users && !exists j: nat, k: nat :: Refuses(before, rs, answers, id, j, k)
  {
    SurvivorsFailedNothing(users, rs, rest, id);
    if Fails(rs, id) {
      var j :| 0 <= j < |rs| && FailsIn(rs[j], id);
      var k :| 0 <= k < |rs[j].sends| && rs[j].sends[k] == Delivery(id, false);
      assert Answered(before + rs[..j], rs[j], answers);
      assert Refuses(before, rs, answers, id, j, k);
    }
    forall j: nat, k: nat | Refuses(before, rs, answers, id, j, k) ensures Fails(rs, id) {
      assert Answered(before + rs[..j], rs[j], answers);
      assert rs[j].sends[k] == Delivery(id, false);
      assert FailsIn(rs[j], id) && rs[j] in rs;
    }
  }

  // ---- whole runs: what the history of a server always satisfies ----

  /** How often a note was announced. */
  function Announced(wire: seq<Round>, n: Note): nat {
    if wire == [] then 0
    else Announced(wire[..|wire| - 1], n) + if wire[|wire| - 1].note == n then 1 else 0
  }

  lemma {:induction false} AnnouncedConcat(rs: seq<Round>, ss: seq<Round>, n: Note)
    ensures Announced(rs + ss, n) == Announced(rs, n) + Announced(ss, n)
  {
    if ss == [] {
      assert rs + ss == rs;
    } else {
      assert (rs + ss)[..|rs + ss| - 1] == rs + ss[..|ss| - 1];
      AnnouncedConcat(rs, ss[..|ss| - 1], n);
    }
  }

  /** A note that no round carries was not announced; one that exactly one round carries was announced once. */
  lemma {:induction false} AnnouncedOnce(rs: seq<Round>, n: Note)
    requires forall j, k :: 0 <= j < k < |rs| ==> !(rs[j].note == n == rs[k].note)
    ensures Announced(rs, n) == if exists r <- rs :: r.note == n then 1 else 0
  {
    if rs != [] {
      var front, last := rs[..|rs| - 1], rs[|rs| - 1];
      AnnouncedOnce(front, n);
      assert forall r :: r in rs <==> r in front || r == last;
      if last.note == n {
        assert forall r <- front :: r.note != n;
      }
    }
  }

  /** In a sweep begun by `first`, each departed client is announced once and nobody else. */
  lemma SweepAnnounces(users: set<UserId>, rs: seq<Round>, rest: set<UserId>, n: Note)
    requires Sweep(users, rs, rest) && (rs[0].note.Left? ==> rs[0].note.id !in users)
    ensures Announced(rs, n) ==
              if n == rs[0].note then 1 else if n.Left? && n.id in AllGone(rs) then 1 else 0
  {
    forall j, k | 0 <= j < k < |rs| ensures !(rs[j].note == n == rs[k].note) {}
    AnnouncedOnce(rs, n);
    assert rs[0] in rs;
    if n.Left? && n.id in AllGone(rs) {
      var j :| 1 <= j < |rs| && rs[j].note.Left? && rs[j].note.id == n.id;
      assert rs[j] in rs;
    }
    forall r | r in rs && r.note == n && n != rs[0].note ensures n.Left? && n.id in AllGone(rs) {
      var j :| 0 <= j < |rs| && rs[j] == r;
    }
  }

  /** Every departure is announced after the arrival. */
  ghost predicate JoinsFirst(wire: seq<Round>) {
    forall k :: 0 <= k < |wire| && wire[k].note.Left? ==> Announced(wire[..k], Joined(wire[k].note.id)) > 0
  }

  /**
   * Ids below `next` may have been handed out, and each only once: a client has one join announcement or none,
   * and one departure announcement exactly if it joined and is no longer there.
   */
  ghost predicate HistoryOk(wire: seq<Round>, users: set<UserId>, next: nat) {
    && JoinsFirst(wire)
    && (forall id: UserId :: Announced(wire, Joined(id)) <= if id < next then 1 else 0)
    && (forall id: UserId :: Announced(wire, Left(id))
          == if id !in users && Announced(wire, Joined(id)) > 0 then 1 else 0)
    && (forall id <- users :: Announced(wire, Joined(id)) == 1)
  }

  lemma {:induction false} AnnouncedPrefix(wire: seq<Round>, k: nat, n: Note)
    requires k <= |wire|
    ensures Announced(wire[..k], n) <= Announced(wire, n)
  {
    AnnouncedConcat(wire[..k], wire[k..], n);
    assert wire[..k] + wire[k..] == wire;
  }

  lemma JoinsFirstConcat(wire: seq<Round>, rs: seq<Round>)
    requires JoinsFirst(wire)
    requires forall k :: 0 <= k < |rs| && rs[k].note.Left? ==>
               Announced(wire, Joined(rs[k].note.id)) > 0
               || (k > 0 && rs[0].note == Joined(rs[k].note.id))
    ensures JoinsFirst(wire + rs)
  {
    var all := wire + rs;
    forall k | 0 <= k < |all| && all[k].note.Left? ensures Announced(all[..k], Joined(all[k].note.id)) > 0 {
      var n := Joined(all[k].note.id);
      if k < |wire| {
        assert all[..k] == wire[..k];
      } else {
        assert all[..k] == wire + rs[..k - |wire|];
        AnnouncedConcat(wire, rs[..k - |wire|], n);
        if Announced(wire, n) == 0 {
          AnnouncedPrefix(rs[..k - |wire|], 1, n);
          assert rs[..k - |wire|][..1] == [rs[0]];
          assert Announced([rs[0]], n) == 1;
        }
      }
    }
  }

  lemma SweepRest(users: set<UserId>, rs: seq<Round>, rest: set<UserId>)
    requires Sweep(users, rs, rest)
    ensures rest == users - AllGone(rs) && AllGone(rs) <= users
    ensures forall k :: 1 <= k < |rs| ==> rs[k].note.Left? && rs[k].note.id in users
  {}

  /** A sweep begun by a chat line or by the departure of a removed client. */
  lemma HistorySweep(wire: seq<Round>, users: set<UserId>, next: nat, present: set<UserId>, rs: seq<Round>,
                     rest: set<UserId>)
    requires HistoryOk(wire, users, next) && Sweep(present, rs, rest)
    requires (rs[0].note.Said? && present == users)
             || (rs[0].note.Left? && rs[0].note.id in users && present == users - {rs[0].note.id})
    ensures HistoryOk(wire + rs, rest, next)
  {
    hide Sweep, AllGone, JoinsFirst;
    SweepRest(present, rs, rest);
    JoinsFirstConcat(wire, rs);
    forall id: UserId ensures Announced(wire + rs, Joined(id)) == Announced(wire, Joined(id)) {
      AnnouncedConcat(wire, rs, Joined(id));
      SweepAnnounces(present, rs, rest, Joined(id));
    }
    forall id: UserId
      ensures Announced(wire + rs, Left(id)) == if id !in rest && Announced(wire, Joined(id)) > 0 then 1 else 0
    {
      AnnouncedConcat(wire, rs, Left(id));
      SweepAnnounces(present, rs, rest, Left(id));
    }
  }

  /** A sweep begun by the arrival of a client with a new id. */
  lemma HistoryJoin(wire: seq<Round>, users: set<UserId>, next: nat, id: UserId, rs: seq<Round>, rest: set<UserId>)
    requires HistoryOk(wire, users, next) && next <= id
    requires Sweep(users + {id}, rs, rest) && rs[0].note == Joined(id)
    ensures HistoryOk(wire + rs, rest, id + 1)
  {
    hide Sweep, AllGone, JoinsFirst;
    SweepRest(users + {id}, rs, rest);
    JoinsFirstConcat(wire, rs);
    forall u: UserId ensures Announced(wire + rs, Joined(u)) == Announced(wire, Joined(u)) + if u == id then 1 else 0 {
      AnnouncedConcat(wire, rs, Joined(u));
      SweepAnnounces(users + {id}, rs, rest, Joined(u));
    }
    forall u: UserId
      ensures Announced(wire + rs, Left(u))
           == if u !in rest && Announced(wire + rs, Joined(u)) > 0 then 1 else 0
    {
      AnnouncedConcat(wire, rs, Left(u));
      SweepAnnounces(users + {id}, rs, rest, Left(u));
    }
  }

  /** A client announced as gone is never among the users again, however the history goes on. */
  lemma GoneForGood(wire: seq<Round>, later: seq<Round>, users: set<UserId>, next: nat, id: UserId)
    requires wire <= later && HistoryOk(later, users, next) && Announced(wire, Left(id)) > 0
    ensures id !in users && Announced(later, Left(id)) == 1
  {
    AnnouncedPrefix(later, |wire|, Left(id));
    assert later[..|wire|] == wire;
  }
}
