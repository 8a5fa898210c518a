/**
  Seats: slot accounting is exact, the host keeps the first seat until it leaves,
  and what QuickMatch hands out can be joined.
*/
module Seats {
  import opened Options
  import opened Bytes
  import opened SparkGame
  import opened Lobbies
  import opened Machine
  import opened Invariants
  import opened Orphans
  import opened MatchLog
  import opened Party
  import Browse

  // In every reachable state the clamp in `public_remaining` does nothing, lobbies hold at most four
  // distinct players, and each host has one lobby.
  lemma SlotsAreExact(steps: seq<Step>, gid: Gid)
    requires gid in Run(START, steps).reg.byId
    ensures var r := Run(START, steps).reg; var l := r.byId[gid];
            && PublicRemaining(l) == PublicSlots(l.raw) as int - Joiners(l.participants, l.ownerPid, l.invited)
            && Distinct(l.participants) && |l.participants| <= MAX_PARTICIPANTS
            && l.ownerPid in r.owners && r.owners[l.ownerPid] == gid
            && forall g | g in r.byId && r.byId[g].ownerPid == l.ownerPid :: g == gid
  {
    InvRun(START, steps);
  }

  // In every reachable state the two dictionaries are mutually inverse, every lobby is filed under its own id,
  // and the insertion order lists exactly the live ids, oldest first.
  lemma OneLobbyPerHost(steps: seq<Step>)
    ensures var r := Run(START, steps).reg;
            && (forall g | g in r.byId :: r.byId[g].id == g && r.byId[g].ownerPid in r.owners
                  && r.owners[r.byId[g].ownerPid] == g)
            && (forall p | p in r.owners :: r.owners[p] in r.byId && r.byId[r.owners[p]].ownerPid == p)
            && (forall g :: g in r.order <==> g in r.byId)
            && (forall i, j | 0 <= i < j < |r.order| :: r.order[i] < r.order[j])
  {
    hide Run;
    InvRun(START, steps);
  }

  // ---- QuickMatch ------------------------------------------------------------------------------

  // The tests of `quick_match`, in order; note that fullness is not among them.
  predicate Eligible(w: World, l: Lobby, pid: Pid, ranked: Byte) {
    && l.ownerPid != pid && Urls(w, l.hostConn) != [] && PublicRemaining(l) > 0 && !l.closed
    && (Settings(l.raw).Some? ==> Settings(l.raw).value[RANKED_OFFSET] == ranked)
  }

  // The loop keeps the first eligible lobby in registry order.
  method QuickMatch(w: World, pid: Pid, params: seq<Byte>) returns (chosen: Option<Gid>)
    requires Consistent(w.reg)
    ensures var ranked := if params == [] then 1 else params[0];
            match chosen
            case None => forall g | g in w.reg.byId :: !Eligible(w, w.reg.byId[g], pid, ranked)
            case Some(g) => g in w.reg.byId && Eligible(w, w.reg.byId[g], pid, ranked)
                            && forall g' | g' in w.reg.byId && Eligible(w, w.reg.byId[g'], pid, ranked) :: g <= g'
  {
    var ranked := if params == [] then 1 else params[0];
    var order := w.reg.order;
    chosen := None;
    for i := 0 to |order|
      invariant chosen.None? ==> forall k | 0 <= k < i :: !Eligible(w, w.reg.byId[order[k]], pid, ranked)
      invariant chosen.Some? ==>
        exists k :: 0 <= k < i && order[k] == chosen.value && Eligible(w, w.reg.byId[order[k]], pid, ranked)
                    && forall j | 0 <= j < k :: !Eligible(w, w.reg.byId[order[j]], pid, ranked)
    {
      assert order[i] in order;
      if Eligible(w, w.reg.byId[order[i]], pid, ranked) && chosen.None? {
        chosen := Some(order[i]);
      }
    }
    forall g | g in w.reg.byId && Eligible(w, w.reg.byId[g], pid, ranked)
      ensures chosen.Some? && chosen.value <= g
    {
      assert g in order;
      var k :| 0 <= k < |order| && order[k] == g;
    }
  }

  // A lobby of the registry as the two-section reply shows it, the host's URLs spelled by `spell`.
  function ListingOf(w: World, l: Lobby, spell: string -> seq<Byte>): Browse.Listing {
    var urls := Urls(w, l.hostConn);
    Browse.Listing(l, seq(|urls|, i requires 0 <= i < |urls| => spell(urls[i])))
  }

  predicate Oldest(w: World, pid: Pid, ranked: Byte, g: Gid) {
    && g in w.reg.byId && Eligible(w, w.reg.byId[g], pid, ranked)
    && forall g' | g' in w.reg.byId && Eligible(w, w.reg.byId[g'], pid, ranked) :: g <= g'
  }

  // The whole handler: the list of the one lobby chosen, or of none; None where rendering raises.
  method AnswerQuickMatch(w: World, pid: Pid, params: seq<Byte>, spell: string -> seq<Byte>)
    returns (reply: Option<seq<Byte>>)
    requires Consistent(w.reg)
    requires forall g | g in w.reg.byId :: Browse.Countable([ListingOf(w, w.reg.byId[g], spell)])
    ensures var ranked := if params == [] then 1 else params[0];
            && (forall g | Oldest(w, pid, ranked, g) :: reply == Browse.Reply([ListingOf(w, w.reg.byId[g], spell)]))
            && ((forall g | g in w.reg.byId :: !Eligible(w, w.reg.byId[g], pid, ranked)) ==> reply == Browse.Reply([]))
  {
    hide Browse.Reply, ListingOf, Eligible, Consistent;
    var chosen := QuickMatch(w, pid, params);
    reply := Browse.BuildReply(if chosen.None? then [] else [ListingOf(w, w.reg.byId[chosen.value], spell)]);
  }

  // An eligible lobby admits the caller exactly when it is not full; with at most three public slots it never is.
  lemma EligibleAdmits(steps: seq<Step>, gid: Gid, pid: Pid, ranked: Byte)
    requires gid in Run(START, steps).reg.byId
        && Eligible(Run(START, steps), Run(START, steps).reg.byId[gid], pid, ranked)
    ensures var w := Run(START, steps); var l := w.reg.byId[gid];
            && (Admits(w, l, pid) <==> |l.participants| < MAX_PARTICIPANTS)
            && (PublicSlots(l.raw) < MAX_PARTICIPANTS ==> Admits(w, l, pid))
  {
    InvRun(START, steps);
    var l := Run(START, steps).reg.byId[gid];
    JoinersCount(l.participants, l.ownerPid);
  }

  // Four players fill a lobby and a fifth connects.
  function FullHouse(pids: seq<Pid>, ats: seq<Remote>, url: string, raw: seq<Byte>): seq<Step>
    requires |pids| == |ats| == 5
  {
    HostSteps(pids[0], ats[0], url, raw)
    + (GuestSteps(pids[1], ats[1]) + (GuestSteps(pids[2], ats[2]) + (GuestSteps(pids[3], ats[3])
    + [Syn(Secure, ats[4]), Connect(Secure, ats[4], true, Some(pids[4]))])))
  }

  // Whenever a host offers four or more public slots: the run leads to a lobby that QuickMatch offers the fifth
  // player and that refuses it.
  lemma FullLobbyIsOffered(pids: seq<Pid>, ats: seq<Remote>, url: string, raw: seq<Byte>)
    requires |pids| == |ats| == 5 && PublicSlots(raw) >= 4
    requires forall i, j | 0 <= i < j < 5 :: pids[i] != pids[j] && ats[i] != ats[j]
    ensures var w := Run(START, FullHouse(pids, ats, url, raw));
            && Established(w, Secure, ats[4]).Some? && w.conns[Established(w, Secure, ats[4]).value].userPid == pids[4]
            && FIRST_GID in w.reg.byId && Settings(raw).Some?
            && Eligible(w, w.reg.byId[FIRST_GID], pids[4], Settings(raw).value[RANKED_OFFSET])
            && !Admits(w, w.reg.byId[FIRST_GID], pids[4])
  {
    hide Run, Hall, HostSteps, GuestSteps, Next, Eligible, Admits, PublicSlots;
    var seats := seq(4, i requires 0 <= i < 4 => Participant(pids[i], ats[i], Some(i)));
    var last := [Syn(Secure, ats[4]), Connect(Secure, ats[4], true, Some(pids[4]))];
    var h, g1, g2, g3 := HostSteps(pids[0], ats[0], url, raw), GuestSteps(pids[1], ats[1]), GuestSteps(pids[2], ats[2]),
                         GuestSteps(pids[3], ats[3]);
    var w0 := Run(START, h);
    var w1 := Run(w0, g1);
    var w2 := Run(w1, g2);
    var w3 := Run(w2, g3);
    RunAppend(START, h, g1 + (g2 + (g3 + last)));
    RunAppend(w0, g1, g2 + (g3 + last));
    RunAppend(w1, g2, g3 + last);
    RunAppend(w2, g3, last);
    HostOpens(pids[0], ats[0], url, raw);
    assert [seats[0]] == seats[..1] && seats[..1] + [seats[1]] == seats[..2] && seats[..2] + [seats[2]] == seats[..3]
           && seats[..3] + [seats[3]] == seats;
    GuestEnters(w0, raw, url, seats[..1], pids[1], ats[1]);
    GuestEnters(w1, raw, url, seats[..2], pids[2], ats[2]);
    GuestEnters(w2, raw, url, seats[..3], pids[3], ats[3]);
    LatecomerRefused(w3, raw, url, seats, pids[4], ats[4]);
  }

  lemma LatecomerRefused(w: World, raw: seq<Byte>, url: string, ps: seq<Participant>, pid: Pid, at: Remote)
    requires Hall(w, raw, url, ps) && Distinct(ps) && |ps| == 4 && PublicSlots(raw) >= 4
    requires forall p | p in ps :: p.pid != pid && p.remote != at
    ensures var w' := Run(w, [Syn(Secure, at), Connect(Secure, at, true, Some(pid))]);
            && Established(w', Secure, at).Some? && w'.conns[Established(w', Secure, at).value].userPid == pid
            && FIRST_GID in w'.reg.byId && Settings(raw).Some?
            && Eligible(w', w'.reg.byId[FIRST_GID], pid, Settings(raw).value[RANKED_OFFSET])
            && !Admits(w', w'.reg.byId[FIRST_GID], pid)
  {
    hide Run, Readable, Joiners;
    var s1, s2 := Syn(Secure, at), Connect(Secure, at, true, Some(pid));
    var w1 := Next(w, s1);
    var w2 := Next(w1, s2);
    assert [s1, s2] == [s1] + ([s2] + []);
    RunFirst(w, s1, [s2] + []);
    RunFirst(w1, s2, []);
    RunNone(w2);
    GuestConnects(w, w1, w2, raw, url, ps, pid, at);
    GuestsCount(ps);
    assert ps[0] in ps;
  }

  // Such blobs exist.
  const FOUR_SLOTS: seq<Byte> := seq(0x76, i => if i == 0x43 then 4 else 0)

  lemma FourSlotsOffered()
    ensures PublicSlots(FOUR_SLOTS) == 4
  {
    assert U16(FOUR_SLOTS, DISPLAY_OFFSET) == 0;
    assert Settings(FOUR_SLOTS) == Some(FOUR_SLOTS[0x36..0x76]);
    assert U32(FOUR_SLOTS[0x36..0x76], PUBLIC_SLOTS_OFFSET) == 4;
  }

  // ---- the first seat ----------------------------------------------------------------------------

  // Whether `pid` has left the lobby by LeaveGathering since it was created.
  function HasLeft(log: seq<Event>, gid: Gid, pid: Pid): bool {
    if log == [] then false
    else
      match log[|log| - 1]
      case Created(g, _) => g != gid && HasLeft(log[..|log| - 1], gid, pid)
      case Left(g, p) => (g == gid && p == pid) || HasLeft(log[..|log| - 1], gid, pid)
      case _ => HasLeft(log[..|log| - 1], gid, pid)
  }

  lemma HasLeftSnoc(log: seq<Event>, e: Event, gid: Gid, pid: Pid)
    ensures HasLeft(log + [e], gid, pid)
         == match e
            case Created(g, _) => g != gid && HasLeft(log, gid, pid)
            case Left(g, p) => (g == gid && p == pid) || HasLeft(log, gid, pid)
            case _ => HasLeft(log, gid, pid)
  {
    assert (log + [e])[..|log|] == log;
  }

  predicate Stays(e: Event) { !e.Created? && !e.Left? }

  predicate AllStay(es: seq<Event>) { forall i | 0 <= i < |es| :: Stays(es[i]) }

  lemma {:induction false} HasLeftStays(log: seq<Event>, es: seq<Event>, gid: Gid, pid: Pid)
    requires AllStay(es)
    ensures HasLeft(log + es, gid, pid) == HasLeft(log, gid, pid)
  {
    if es == [] {
      assert log + es == log;
    } else {
      var init, last := es[..|es| - 1], es[|es| - 1];
      HasLeftStays(log, init, gid, pid);
      HasLeftSnoc(log + init, last, gid, pid);
      assert log + es == (log + init) + [last];
    }
  }

  predicate HostSeated(log: seq<Event>, l: Lobby) {
    !HasLeft(log, l.id, l.ownerPid) ==>
      l.participants != [] && l.participants[0].pid == l.ownerPid && l.participants[0].remote == l.ownerRemote
  }

  ghost predicate HostsFirst(w: World) {
    forall g | g in w.reg.byId :: HostSeated(w.log, w.reg.byId[g])
  }

  // A step in which nobody leaves by request and surviving first seats stay.
  lemma HostsFirstStay(w: World, w': World, es: seq<Event>)
    requires HostsFirst(w) && w'.log == w.log + es && AllStay(es)
    requires forall g | g in w'.reg.byId :: g in w.reg.byId && SameIdentity(w.reg.byId[g], w'.reg.byId[g])
               && (HostSeated(w.log, w.reg.byId[g]) ==> HostSeated(w.log, w'.reg.byId[g]))
    ensures HostsFirst(w')
  {
    forall g | g in w'.reg.byId ensures HostSeated(w'.log, w'.reg.byId[g]) {
      HasLeftStays(w.log, es, w'.reg.byId[g].id, w'.reg.byId[g].ownerPid);
    }
  }

  lemma HostsFirstDisconnect(w: World, port: Port, remote: Remote)
    requires Inv(w) && HostsFirst(w)
    ensures HostsFirst(HandleDisconnect(w, port, remote))
  {
    var w' := HandleDisconnect(w, port, remote);
    CloseConsistent(w.reg, remote);
    CloseErases(w.reg, remote);
    forall g | g in w'.reg.byId && HostSeated(w.log, w.reg.byId[g]) ensures HostSeated(w.log, w'.reg.byId[g]) {
      if !HasLeft(w.log, g, w.reg.byId[g].ownerPid) {
        WithoutKeepsFirst(w.reg.byId[g].participants, ByRemote(remote));
      }
    }
    HostsFirstStay(w, w', [Closed(remote, DroppedBy(w.reg, remote))]);
  }

  lemma {:induction false} HostsFirstReap(w: World, port: Port, stale: seq<Remote>)
    requires Inv(w) && HostsFirst(w)
    ensures HostsFirst(ReapAll(w, port, stale))
    decreases stale
  {
    if stale != [] {
      InvDisconnect(w, port, stale[0]);
      HostsFirstDisconnect(w, port, stale[0]);
      HostsFirstReap(HandleDisconnect(w, port, stale[0]), port, stale[1..]);
    }
  }

  lemma HostsFirstCreate(w: World, id: ConnId, c: Conn, raw: seq<Byte>)
    requires Inv(w) && HostsFirst(w)
    ensures HostsFirst(CreateGathering(w, id, c, raw))
  {
    var w' := CreateGathering(w, id, c, raw);
    forall g | g in w'.reg.byId ensures HostSeated(w'.log, w'.reg.byId[g]) {
      HasLeftSnoc(w.log, Created(w.reg.nextId, c.userPid), g, w'.reg.byId[g].ownerPid);
    }
  }

  lemma HostsFirstJoin(w: World, port: Port, id: ConnId, c: Conn, params: seq<Byte>)
    requires Inv(w) && HostsFirst(w)
    ensures HostsFirst(JoinGathering(w, port, id, c, params))
  {
    hide JoinEvents, HasLeft, Consistent, TimersOk, LobbiesOk, TableOk, PublicRemaining;
    var w' := JoinGathering(w, port, id, c, params);
    if w'.reg != w.reg || w'.log != w.log {
      var gid := GidOf(params);
      var l := w.reg.byId[gid];
      var host := w.conns[l.hostConn.value].remote;
      var ps := w'.reg.byId[gid].participants;
      BroadcastSends(w.table, port, ps, c.userPid, Insert(gid, c.userPid));
      JoinStays(w.table, port, host, c, gid, ps);
      HostsFirstStay(w, w', JoinEvents(w.table, port, host, c, gid, ps));
    }
  }

  lemma JoinStays(table: map<Key, ConnId>, port: Port, hostRemote: Remote, c: Conn, gid: Gid, ps: seq<Participant>)
    ensures AllStay(JoinEvents(table, port, hostRemote, c, gid, ps))
  {
    BroadcastSends(table, port, ps, c.userPid, Insert(gid, c.userPid));
  }

  lemma HostsFirstLeave(w: World, port: Port, c: Conn, params: seq<Byte>)
    requires Inv(w) && HostsFirst(w)
    ensures HostsFirst(LeaveGathering(w, port, c, params))
  {
    hide HasLeft, TimersOk, LobbiesOk, TableOk, HostsOk;
    var w' := LeaveGathering(w, port, c, params);
    var gid := GidOf(params);
    if gid in w.reg.byId
        && |Without(w.reg.byId[gid].participants, ByPid(c.userPid))| != |w.reg.byId[gid].participants| {
      var rest := Without(w.reg.byId[gid].participants, ByPid(c.userPid));
      var erases := Broadcast(w.table, port, rest, c.userPid, Erase(gid, c.userPid));
      BroadcastSends(w.table, port, rest, c.userPid, Erase(gid, c.userPid));
      assert w'.log == (w.log + [Left(gid, c.userPid)]) + erases;
      forall g | g in w'.reg.byId ensures HostSeated(w'.log, w'.reg.byId[g]) {
        var l := w.reg.byId[g];
        HasLeftSnoc(w.log, Left(gid, c.userPid), g, l.ownerPid);
        HasLeftStays(w.log + [Left(gid, c.userPid)], erases, g, l.ownerPid);
        if !HasLeft(w'.log, g, l.ownerPid) && g == gid {
          WithoutKeepsFirst(l.participants, ByPid(c.userPid));
        }
      }
    }
  }

  lemma HostsFirstDestroy(w: World, port: Port, c: Conn, params: seq<Byte>)
    requires HostsFirst(w)
    ensures HostsFirst(DestroyGathering(w, port, c, params))
  {
    var w' := DestroyGathering(w, port, c, params);
    var gid := GidOf(params);
    if gid in w.reg.byId && w.reg.byId[gid].ownerPid == c.userPid {
      BroadcastSends(w.table, port, w.reg.byId[gid].participants, c.userPid, Erase(gid, c.userPid));
      HostsFirstStay(w, w', Broadcast(w.table, port, w.reg.byId[gid].participants, c.userPid, Erase(gid, c.userPid)));
    }
  }

  lemma HostsFirstMatch(w: World, port: Port, id: ConnId, call: Call)
    requires Inv(w) && HostsFirst(w) && id < |w.conns| && MatchCall(call)
    ensures HostsFirst(Handle(w, port, id, call))
  {
    var es := MatchEvents(w, port, id, call);
    MatchSamePeople(w, port, id, call);
    HostsFirstStay(w, Handle(w, port, id, call), es);
  }

  lemma HostsFirstTimeout(w: World, t: TimerId)
    requires HostsFirst(w)
    ensures HostsFirst(OnTimeout(w, t))
  {
    assert w.log == w.log + [];
    if t in w.timers && w.timers[t].gid in w.reg.byId {
      var es := FireEvents(w.(timers := w.timers - {t}), w.timers[t].port, w.timers[t].gid, TimedOut);
      HostsFirstStay(w, OnTimeout(w, t), if OnTimeout(w, t).log == w.log then [] else es);
    }
  }

  lemma HostsFirstNext(w: World, s: Step)
    requires Inv(w) && HostsFirst(w)
    ensures HostsFirst(Next(w, s))
  {
    match s
    case Disconnect(port, remote) => HostsFirstDisconnect(w, port, remote);
    case Reap(port, stale) => HostsFirstReap(w, port, stale);
    case Expire(t) => HostsFirstTimeout(w, t);
    case Request(port, remote, call) =>
      if Established(w, port, remote).Some? {
        HostsFirstHandle(w, port, Established(w, port, remote).value, call);
      }
    case _ =>
  }

  lemma HostsFirstHandle(w: World, port: Port, id: ConnId, call: Call)
    requires Inv(w) && HostsFirst(w) && id < |w.conns|
    ensures HostsFirst(Handle(w, port, id, call))
  {
    match call
    case Create(raw) => HostsFirstCreate(w, id, w.conns[id], raw);
    case Join(params) => HostsFirstJoin(w, port, id, w.conns[id], params);
    case Leave(params) => HostsFirstLeave(w, port, w.conns[id], params);
    case Destroy(params) => HostsFirstDestroy(w, port, w.conns[id], params);
    case _ => HostsFirstMatch(w, port, id, call);
  }

  lemma {:induction false} HostsFirstRun(w: World, steps: seq<Step>)
    requires Inv(w) && HostsFirst(w)
    ensures HostsFirst(Run(w, steps))
    decreases steps
  {
    if steps != [] {
      InvNext(w, steps[0]);
      HostsFirstNext(w, steps[0]);
      HostsFirstRun(Next(w, steps[0]), steps[1..]);
    }
  }

  // In every reachable state a host that has not left its lobby by request is its first participant,
  // still at the remote it created the lobby from.
  lemma HostStaysFirst(steps: seq<Step>, gid: Gid)
    requires gid in Run(START, steps).reg.byId
    ensures var w := Run(START, steps); var l := w.reg.byId[gid];
            !HasLeft(w.log, gid, l.ownerPid) ==>
              l.participants != [] && l.participants[0].pid == l.ownerPid && l.participants[0].remote == l.ownerRemote
  {
    InvRun(START, steps);
    HostsFirstRun(START, steps);
    assert HostSeated(Run(START, steps).log, Run(START, steps).reg.byId[gid]);
  }
}
