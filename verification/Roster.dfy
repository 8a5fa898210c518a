/**
  Roster replication: what the secure port has told a participant about its
  lobby agrees with the server's own list, up to players removed by a
  disconnect, whom nobody is told about.
*/
module Roster {
  import opened Options
  import opened Bytes
  import opened Lobbies
  import opened Machine
  import opened Invariants
  import opened Orphans
  import opened MatchLog

  // ---- the client's side: folding the notification events -------------------------------

  // The roster node set of a client: 900002 inserts if absent, 900000 erases if present. A host starts
  // with itself at create; a joiner starts empty at its latest join.
  function Apply(roster: set<Pid>, gid: Gid, pid: Pid, remote: Remote, e: Event): set<Pid> {
    match e
    case Created(g, p) => if g == gid && p == pid then {pid} else roster
    case Joined(g, p) => if g == gid && p == pid then {} else roster
    case Sent(port, to, push) =>
      if port != Secure || to != remote then roster
      else (match push
            case Insert(g, subject) => if g == gid then roster + {subject} else roster
            case Erase(g, subject) => if g == gid then roster - {subject} else roster
            case _ => roster)
    case _ => roster
  }

  function ClientRoster(log: seq<Event>, gid: Gid, pid: Pid, remote: Remote): set<Pid> {
    if log == [] then {} else Apply(ClientRoster(log[..|log| - 1], gid, pid, remote), gid, pid, remote, log[|log| - 1])
  }

  // Players a disconnect removed from the lobby since `pid` came in, and who have not come back.
  function ApplyStale(stale: set<Pid>, gid: Gid, pid: Pid, e: Event): set<Pid> {
    match e
    case Created(g, p) => if g == gid && p == pid then {} else stale
    case Joined(g, p) => if g != gid then stale else if p == pid then {} else stale - {p}
    case Closed(_, dropped) => if gid in dropped then stale + dropped[gid] else stale
    case _ => stale
  }

  function Stale(log: seq<Event>, gid: Gid, pid: Pid): set<Pid> {
    if log == [] then {} else ApplyStale(Stale(log[..|log| - 1], gid, pid), gid, pid, log[|log| - 1])
  }

  // Whether any disconnect has removed anybody from the lobby since `pid` came in.
  function DroppedSince(log: seq<Event>, gid: Gid, pid: Pid): bool {
    if log == [] then false
    else
      var before := DroppedSince(log[..|log| - 1], gid, pid);
      match log[|log| - 1]
      case Created(g, p) => if g == gid && p == pid then false else before
      case Joined(g, p) => if g == gid && p == pid then false else before
      case Closed(_, dropped) => before || (gid in dropped && dropped[gid] != {})
      case _ => before
  }

  lemma RosterSnoc(log: seq<Event>, e: Event, gid: Gid, pid: Pid, remote: Remote)
    ensures ClientRoster(log + [e], gid, pid, remote) == Apply(ClientRoster(log, gid, pid, remote), gid, pid, remote, e)
    ensures Stale(log + [e], gid, pid) == ApplyStale(Stale(log, gid, pid), gid, pid, e)
  {
    assert (log + [e])[..|log|] == log;
  }

  lemma {:induction false} StaleWasDropped(log: seq<Event>, gid: Gid, pid: Pid)
    ensures Stale(log, gid, pid) != {} ==> DroppedSince(log, gid, pid)
  {
    if log != [] {
      StaleWasDropped(log[..|log| - 1], gid, pid);
    }
  }

  // ---- folding the sequences a handler sends -----------------------------------------------

  // Events without effect on the roster that (gid, pid, remote) keeps.
  predicate Foreign(gid: Gid, e: Event) {
    match e
    case Created(g, _) => g != gid
    case Joined(g, _) => g != gid
    case Closed(_, _) => false
    case Sent(_, _, Insert(g, _)) => g != gid
    case Sent(_, _, Erase(g, _)) => g != gid
    case _ => true
  }

  predicate AllForeign(gid: Gid, es: seq<Event>) { forall i | 0 <= i < |es| :: Foreign(gid, es[i]) }

  lemma {:induction false} RosterForeign(log: seq<Event>, es: seq<Event>, gid: Gid, pid: Pid, remote: Remote)
    requires AllForeign(gid, es)
    ensures ClientRoster(log + es, gid, pid, remote) == ClientRoster(log, gid, pid, remote)
    ensures Stale(log + es, gid, pid) == Stale(log, gid, pid)
  {
    if es == [] {
      assert log + es == log;
    } else {
      var init, last := es[..|es| - 1], es[|es| - 1];
      RosterForeign(log, init, gid, pid, remote);
      RosterSnoc(log + init, last, gid, pid, remote);
      assert log + es == (log + init) + [last];
    }
  }

  // A participant other than the subject, reachable on the secure port, gets the broadcast.
  predicate Addressed(table: map<Key, ConnId>, ps: seq<Participant>, subject: Pid, remote: Remote) {
    Key(Secure, remote) in table && exists p :: p in ps && p.pid != subject && p.remote == remote
  }

  function PushOf(roster: set<Pid>, push: Push): set<Pid> {
    if push.Insert? then roster + {push.subject} else if push.Erase? then roster - {push.subject} else roster
  }

  lemma {:induction false} RosterBroadcast(log: seq<Event>, table: map<Key, ConnId>, ps: seq<Participant>,
                                           subject: Pid, push: Push, gid: Gid, pid: Pid, remote: Remote)
    requires (push.Insert? || push.Erase?) && push.gid == gid
    ensures var es := Broadcast(table, Secure, ps, subject, push); var before := ClientRoster(log, gid, pid, remote);
            && Stale(log + es, gid, pid) == Stale(log, gid, pid)
            && ClientRoster(log + es, gid, pid, remote)
               == if Addressed(table, ps, subject, remote) then PushOf(before, push) else before
  {
    if ps == [] {
      assert log + [] == log;
    } else {
      var init, last := ps[..|ps| - 1], ps[|ps| - 1];
      RosterBroadcast(log, table, init, subject, push, gid, pid, remote);
      var es := Broadcast(table, Secure, init, subject, push);
      assert forall p :: p in ps <==> p in init || p == last by { assert ps == init + [last]; }
      if last.pid != subject && Key(Secure, last.remote) in table {
        var e := Sent(Secure, last.remote, push);
        RosterSnoc(log + es, e, gid, pid, remote);
        assert log + (es + [e]) == (log + es) + [e];
      }
    }
  }

  lemma {:induction false} RosterBackfill(log: seq<Event>, to: Remote, ps: seq<Participant>, gid: Gid, pid: Pid,
                                          remote: Remote)
    ensures var es := Backfill(Secure, to, gid, ps); var before := ClientRoster(log, gid, pid, remote);
            && Stale(log + es, gid, pid) == Stale(log, gid, pid)
            && ClientRoster(log + es, gid, pid, remote) == if to == remote then before + Pids(ps) else before
  {
    hide Stale, ClientRoster;
    if ps == [] {
      assert log + [] == log && Pids(ps) == {};
    } else {
      var init, last := ps[..|ps| - 1], ps[|ps| - 1];
      RosterBackfill(log, to, init, gid, pid, remote);
      var es, e := Backfill(Secure, to, gid, init), Sent(Secure, to, Insert(gid, last.pid));
      RosterSnoc(log + es, e, gid, pid, remote);
      assert Backfill(Secure, to, gid, ps) == es + [e];
      assert log + (es + [e]) == (log + es) + [e];
      assert Pids(ps) == Pids(init) + {last.pid} by { assert ps == init + [last]; }
    }
  }

  // ---- the invariant ---------------------------------------------------------------------------

  predicate Told(log: seq<Event>, gid: Gid, ps: seq<Participant>, p: Participant) {
    var stale := Stale(log, gid, p.pid);
    stale !! Pids(ps) && ClientRoster(log, gid, p.pid, p.remote) == Pids(ps) + stale
  }

  ghost predicate Replicated(w: World) {
    forall g, p | g in w.reg.byId && p in w.reg.byId[g].participants :: Told(w.log, g, w.reg.byId[g].participants, p)
  }

  // Membership changes, and their pushes, go through the secure port.
  predicate SecureStep(s: Step) {
    s.Request? && !MatchCall(s.call) ==> s.port == Secure
  }

  lemma ToldForeign(log: seq<Event>, es: seq<Event>, gid: Gid, ps: seq<Participant>, p: Participant)
    requires Told(log, gid, ps, p) && AllForeign(gid, es)
    ensures Told(log + es, gid, ps, p)
  {
    RosterForeign(log, es, gid, p.pid, p.remote);
  }

  // Everybody's roster survives a step whose events are foreign to every surviving lobby.
  lemma ReplicatedForeign(w: World, w': World, es: seq<Event>)
    requires Replicated(w) && w'.log == w.log + es
    requires forall g | g in w'.reg.byId ::
               AllForeign(g, es) && g in w.reg.byId && w'.reg.byId[g].participants == w.reg.byId[g].participants
    ensures Replicated(w')
  {
    forall g, p | g in w'.reg.byId && p in w'.reg.byId[g].participants
      ensures Told(w'.log, g, w'.reg.byId[g].participants, p)
    {
      ToldForeign(w.log, es, g, w.reg.byId[g].participants, p);
    }
  }

  // ---- who is where ------------------------------------------------------------------------------

  lemma DropPids(ps: seq<Participant>, remote: Remote)
    requires Distinct(ps)
    ensures Pids(Without(ps, ByRemote(remote))) == Pids(ps) - PidsAt(ps, remote) && PidsAt(ps, remote) <= Pids(ps)
  {
    forall x | x in Pids(ps) - PidsAt(ps, remote) ensures x in Pids(Without(ps, ByRemote(remote))) {
      var p :| p in ps && p.pid == x;
      assert p in Without(ps, ByRemote(remote));
    }
    forall x | x in Pids(Without(ps, ByRemote(remote))) ensures x !in PidsAt(ps, remote) {
      var p :| p in Without(ps, ByRemote(remote)) && p.pid == x;
      forall q | q in ps && q.remote == remote ensures q.pid != x {
        if q.pid == x { SamePidSameEntry(ps, p, q); }
      }
    }
  }

  lemma SamePidSameEntry(ps: seq<Participant>, p: Participant, q: Participant)
    requires Distinct(ps) && p in ps && q in ps && p.pid == q.pid
    ensures p == q
  {
    var i :| 0 <= i < |ps| && ps[i] == p;
    var j :| 0 <= j < |ps| && ps[j] == q;
  }

  lemma LeavePids(ps: seq<Participant>, pid: Pid)
    ensures Pids(Without(ps, ByPid(pid))) == Pids(ps) - {pid}
    ensures |Without(ps, ByPid(pid))| != |ps| ==> pid in Pids(ps)
  {
    var rest := Without(ps, ByPid(pid));
    forall x | x in Pids(ps) - {pid} ensures x in Pids(rest) {
      var p :| p in ps && p.pid == x;
      assert p in rest;
    }
    if pid !in Pids(ps) {
      forall p | p in ps ensures p.pid != pid { assert p.pid in Pids(ps); }
      WithoutNobody(ps, ByPid(pid));
    }
  }

  // ---- step by step ---------------------------------------------------------------------------------

  lemma ToldDisconnect(log: seq<Event>, r: Registry, remote: Remote, gid: Gid, p: Participant)
    requires Consistent(r) && gid in CloseRemote(r, remote).byId && Distinct(r.byId[gid].participants)
    requires p in CloseRemote(r, remote).byId[gid].participants
    requires p in r.byId[gid].participants && Told(log, gid, r.byId[gid].participants, p)
    ensures Told(log + [Closed(remote, DroppedBy(r, remote))], gid, CloseRemote(r, remote).byId[gid].participants, p)
  {
    hide ClientRoster, Stale, Pids, CloseRemote, Without;
    CloseConsistent(r, remote);
    CloseErases(r, remote);
    DropPids(r.byId[gid].participants, remote);
    RosterSnoc(log, Closed(remote, DroppedBy(r, remote)), gid, p.pid, p.remote);
  }

  lemma ReplicatedDisconnect(w: World, port: Port, remote: Remote)
    requires Inv(w) && Replicated(w)
    ensures Replicated(HandleDisconnect(w, port, remote))
  {
    var w' := HandleDisconnect(w, port, remote);
    CloseConsistent(w.reg, remote);
    forall g, p | g in w'.reg.byId && p in w'.reg.byId[g].participants
      ensures Told(w'.log, g, w'.reg.byId[g].participants, p)
    {
      ToldDisconnect(w.log, w.reg, remote, g, p);
    }
  }

  lemma {:induction false} ReplicatedReap(w: World, port: Port, stale: seq<Remote>)
    requires Inv(w) && Replicated(w)
    ensures Replicated(ReapAll(w, port, stale))
    decreases stale
  {
    if stale != [] {
      InvDisconnect(w, port, stale[0]);
      ReplicatedDisconnect(w, port, stale[0]);
      ReplicatedReap(HandleDisconnect(w, port, stale[0]), port, stale[1..]);
    }
  }

  lemma ReplicatedCreate(w: World, id: ConnId, c: Conn, raw: seq<Byte>)
    requires Inv(w) && Replicated(w)
    ensures Replicated(CreateGathering(w, id, c, raw))
  {
    var w' := CreateGathering(w, id, c, raw);
    var e := Created(w.reg.nextId, c.userPid);
    forall g, p | g in w'.reg.byId && p in w'.reg.byId[g].participants
      ensures Told(w'.log, g, w'.reg.byId[g].participants, p)
    {
      if g == w.reg.nextId {
        RosterSnoc(w.log, e, g, p.pid, p.remote);
      } else {
        ToldForeign(w.log, [e], g, w.reg.byId[g].participants, p);
      }
    }
  }

  // What the events of an admitted join make of one roster: start over if it is the joiner's own,
  // then the joiner if addressed, then everybody if it is the joiner's remote.
  lemma JoinFold(log: seq<Event>, table: map<Key, ConnId>, hostRemote: Remote, c: Conn, gid: Gid,
                 ps: seq<Participant>, pid: Pid, remote: Remote)
    ensures var to := EntryRemote(ps, c.userPid, c.remote);
            ClientRoster(log + JoinEvents(table, Secure, hostRemote, c, gid, ps), gid, pid, remote)
            == AfterInserts(log, table, c, gid, ps, pid, remote)
               + (if Key(Secure, to) in table && to == remote then Pids(ps) else {})
    ensures Stale(log + JoinEvents(table, Secure, hostRemote, c, gid, ps), gid, pid)
            == if pid == c.userPid then {} else Stale(log, gid, pid) - {c.userPid}
  {
    var to := EntryRemote(ps, c.userPid, c.remote);
    var log3 := log + [Joined(gid, c.userPid)] + Probes(Secure, hostRemote, c.urls)
                + Broadcast(table, Secure, ps, c.userPid, Insert(gid, c.userPid));
    InsertsFold(log, table, hostRemote, c, gid, ps, pid, remote);
    RosterBackfill(log3, to, ps, gid, pid, remote);
    var backfill := if Key(Secure, to) in table then Backfill(Secure, to, gid, ps) else [];
    assert log + JoinEvents(table, Secure, hostRemote, c, gid, ps) == log3 + backfill;
    assert log3 + [] == log3;
  }

  function AfterInserts(log: seq<Event>, table: map<Key, ConnId>, c: Conn, gid: Gid, ps: seq<Participant>,
                        pid: Pid, remote: Remote): set<Pid> {
    var start := if pid == c.userPid then {} else ClientRoster(log, gid, pid, remote);
    if Addressed(table, ps, c.userPid, remote) then start + {c.userPid} else start
  }

  lemma InsertsFold(log: seq<Event>, table: map<Key, ConnId>, hostRemote: Remote, c: Conn, gid: Gid,
                    ps: seq<Participant>, pid: Pid, remote: Remote)
    ensures var log3 := log + [Joined(gid, c.userPid)] + Probes(Secure, hostRemote, c.urls)
                        + Broadcast(table, Secure, ps, c.userPid, Insert(gid, c.userPid));
            && ClientRoster(log3, gid, pid, remote) == AfterInserts(log, table, c, gid, ps, pid, remote)
            && Stale(log3, gid, pid) == if pid == c.userPid then {} else Stale(log, gid, pid) - {c.userPid}
  {
    var joined := Joined(gid, c.userPid);
    var probes := Probes(Secure, hostRemote, c.urls);
    RosterSnoc(log, joined, gid, pid, remote);
    RosterForeign(log + [joined], probes, gid, pid, remote);
    RosterBroadcast(log + [joined] + probes, table, ps, c.userPid, Insert(gid, c.userPid), gid, pid, remote);
  }

  // Events of the other port reach no roster.
  predicate OffPort(e: Event) { e.Sent? && e.port != Secure }

  predicate AllOffPort(es: seq<Event>) { forall i | 0 <= i < |es| :: OffPort(es[i]) }

  lemma {:induction false} RosterOffPort(log: seq<Event>, es: seq<Event>, gid: Gid, pid: Pid, remote: Remote)
    requires AllOffPort(es)
    ensures ClientRoster(log + es, gid, pid, remote) == ClientRoster(log, gid, pid, remote)
    ensures Stale(log + es, gid, pid) == Stale(log, gid, pid)
    decreases |es|
  {
    if es == [] {
      assert log + es == log;
    } else {
      var init, last := es[..|es| - 1], es[|es| - 1];
      RosterOffPort(log, init, gid, pid, remote);
      RosterSnoc(log + init, last, gid, pid, remote);
      assert log + es == (log + init) + [last];
    }
  }

  lemma {:induction false} BroadcastOffPort(table: map<Key, ConnId>, ps: seq<Participant>, subject: Pid, push: Push)
    ensures AllOffPort(Broadcast(table, Auth, ps, subject, push))
  {
    if ps != [] {
      BroadcastOffPort(table, ps[..|ps| - 1], subject, push);
    }
  }

  // A join through the other port starts the joiner's roster over and fills nobody's.
  lemma JoinOffPort(log: seq<Event>, table: map<Key, ConnId>, hostRemote: Remote, c: Conn, gid: Gid,
                    ps: seq<Participant>, pid: Pid, remote: Remote)
    ensures ClientRoster(log + JoinEvents(table, Auth, hostRemote, c, gid, ps), gid, pid, remote)
            == if pid == c.userPid then {} else ClientRoster(log, gid, pid, remote)
    ensures Stale(log + JoinEvents(table, Auth, hostRemote, c, gid, ps), gid, pid)
            == if pid == c.userPid then {} else Stale(log, gid, pid) - {c.userPid}
  {
    hide Broadcast, Probes, Backfill, EntryRemote;
    var joined := Joined(gid, c.userPid);
    var events := JoinEvents(table, Auth, hostRemote, c, gid, ps);
    JoinOffPortEvents(table, hostRemote, c, gid, ps);
    RosterSnoc(log, joined, gid, pid, remote);
    RosterOffPort(log + [joined], events[1..], gid, pid, remote);
    assert log + events == log + [joined] + events[1..];
  }

  lemma JoinOffPortEvents(table: map<Key, ConnId>, hostRemote: Remote, c: Conn, gid: Gid, ps: seq<Participant>)
    ensures var events := JoinEvents(table, Auth, hostRemote, c, gid, ps);
            events != [] && events[0] == Joined(gid, c.userPid) && AllOffPort(events[1..])
  {
    BroadcastOffPort(table, ps, c.userPid, Insert(gid, c.userPid));
  }

  // The joiner itself has the whole list exactly if it came through the secure port and its entry's remote is up.
  lemma ToldJoiner(log: seq<Event>, table: map<Key, ConnId>, port: Port, hostRemote: Remote, c: Conn, gid: Gid,
                   ps': seq<Participant>, p: Participant)
    requires Distinct(ps') && p in ps' && p.pid == c.userPid
    ensures Told(log + JoinEvents(table, port, hostRemote, c, gid, ps'), gid, ps', p)
       <==> port == Secure && Key(Secure, EntryRemote(ps', c.userPid, c.remote)) in table
  {
    hide ClientRoster, Stale, JoinEvents;
    var k := Find(ps', c.userPid).value;
    SamePidSameEntry(ps', p, ps'[k]);
    assert p.pid in Pids(ps');
    if port == Secure {
      JoinFold(log, table, hostRemote, c, gid, ps', p.pid, p.remote);
    } else {
      JoinOffPort(log, table, hostRemote, c, gid, ps', p.pid, p.remote);
    }
  }

  // Anybody else, exactly if it can be reached or has the joiner on its roster already.
  lemma ToldOther(log: seq<Event>, table: map<Key, ConnId>, hostRemote: Remote, c: Conn, gid: Gid,
                  ps: seq<Participant>, ps': seq<Participant>, p: Participant)
    requires p in ps' && p.pid != c.userPid && Pids(ps') == Pids(ps) + {c.userPid} && Told(log, gid, ps, p)
    requires Key(Secure, EntryRemote(ps', c.userPid, c.remote)) in table
    ensures Told(log + JoinEvents(table, Secure, hostRemote, c, gid, ps'), gid, ps', p)
       <==> Key(Secure, p.remote) in table || c.userPid in ClientRoster(log, gid, p.pid, p.remote)
  {
    hide ClientRoster, Stale, JoinEvents, Pids, EntryRemote;
    JoinFold(log, table, hostRemote, c, gid, ps', p.pid, p.remote);
  }

  // Who has to hear of a join, and how: decidable before the join from the table and what was sent so far.
  ghost predicate JoinHeard(w: World, port: Port, c: Conn, gid: Gid, ps': seq<Participant>)
    requires gid in w.reg.byId
  {
    && port == Secure && Key(Secure, EntryRemote(ps', c.userPid, c.remote)) in w.table
    && forall q | q in ps' && q.pid != c.userPid ::
         Key(Secure, q.remote) in w.table || c.userPid in ClientRoster(w.log, gid, q.pid, q.remote)
  }

  // The list after an admitted join: the others are who they were.
  lemma AdmitOthers(ps: seq<Participant>, joiner: Participant)
    requires Distinct(ps)
    ensures forall p | p in Admit(ps, joiner) && p.pid != joiner.pid :: p in ps
    ensures exists p :: p in Admit(ps, joiner) && p.pid == joiner.pid
  {
    match Find(ps, joiner.pid)
    case None => assert joiner in ps + [joiner];
    case Some(k) =>
      var ps' := Admit(ps, joiner);
      assert ps'[k] in ps' && ps'[k].pid == joiner.pid;
  }

  lemma ToldJoinIff(w: World, port: Port, l: Lobby, joiner: Participant, hostRemote: Remote, c: Conn, gid: Gid)
    requires gid in w.reg.byId && w.reg.byId[gid] == l && RosterOk(l) && joiner.pid == c.userPid
    requires !IsFull(l) && (joiner.pid in l.invited || PublicRemaining(l) > 0)
    requires forall q | q in l.participants :: Told(w.log, gid, l.participants, q)
    ensures var ps' := Admit(l.participants, joiner);
            (forall p | p in ps' :: Told(w.log + JoinEvents(w.table, port, hostRemote, c, gid, ps'), gid, ps', p))
            <==> JoinHeard(w, port, c, gid, ps')
  {
    hide JoinEvents, ClientRoster, Told, EntryRemote, PublicRemaining, Admit;
    var ps, ps' := l.participants, Admit(l.participants, joiner);
    AdmitRoster(l, joiner);
    AdmitOthers(ps, joiner);
    var je :| je in ps' && je.pid == c.userPid;
    ToldJoiner(w.log, w.table, port, hostRemote, c, gid, ps', je);
    forall p | p in ps' && p.pid == c.userPid ensures p == je { SamePidSameEntry(ps', p, je); }
    if port == Secure && Key(Secure, EntryRemote(ps', c.userPid, c.remote)) in w.table {
      forall p | p in ps' && p.pid != c.userPid
        ensures Told(w.log + JoinEvents(w.table, Secure, hostRemote, c, gid, ps'), gid, ps', p)
           <==> Key(Secure, p.remote) in w.table || c.userPid in ClientRoster(w.log, gid, p.pid, p.remote)
      {
        ToldOther(w.log, w.table, hostRemote, c, gid, ps, ps', p);
      }
    }
  }

  // An admitted join keeps all rosters replicated exactly if it is heard.
  lemma JoinIff(w: World, port: Port, id: ConnId, c: Conn, params: seq<Byte>)
    requires Inv(w) && Replicated(w)
    requires |params| >= 4 && GidOf(params) in w.reg.byId && Admits(w, w.reg.byId[GidOf(params)], c.userPid)
    ensures Replicated(JoinGathering(w, port, id, c, params))
       <==> JoinHeard(w, port, c, GidOf(params),
                      Admit(w.reg.byId[GidOf(params)].participants, Participant(c.userPid, c.remote, Some(id))))
  {
    hide JoinEvents, Told, PublicRemaining, Admit, TimersOk, TableOk, JoinHeard;
    var gid := GidOf(params);
    var l := w.reg.byId[gid];
    var hostRemote := w.conns[l.hostConn.value].remote;
    var joiner := Participant(c.userPid, c.remote, Some(id));
    var w', ps' := JoinGathering(w, port, id, c, params), Admit(l.participants, joiner);
    ToldJoinIff(w, port, l, joiner, hostRemote, c, gid);
    assert w'.reg.byId[gid].participants == ps' && w'.log == w.log + JoinEvents(w.table, port, hostRemote, c, gid, ps');
    forall g, p | g in w'.reg.byId && g != gid && p in w'.reg.byId[g].participants
      ensures Told(w'.log, g, w'.reg.byId[g].participants, p)
    {
      JoinForeign(w.table, port, hostRemote, c, gid, ps', g);
      ToldForeign(w.log, JoinEvents(w.table, port, hostRemote, c, gid, ps'), g, w.reg.byId[g].participants, p);
    }
  }

  lemma BroadcastForeign(table: map<Key, ConnId>, port: Port, ps: seq<Participant>, subject: Pid, push: Push, gid: Gid)
    requires (push.Insert? || push.Erase?) && push.gid != gid
    ensures AllForeign(gid, Broadcast(table, port, ps, subject, push))
  {
    BroadcastSends(table, port, ps, subject, push);
  }

  lemma ForeignConcat(gid: Gid, a: seq<Event>, b: seq<Event>)
    requires AllForeign(gid, a) && AllForeign(gid, b)
    ensures AllForeign(gid, a + b)
  {
  }

  lemma JoinForeign(table: map<Key, ConnId>, port: Port, hostRemote: Remote, c: Conn, gid: Gid, ps: seq<Participant>,
                    other: Gid)
    requires other != gid
    ensures AllForeign(other, JoinEvents(table, port, hostRemote, c, gid, ps))
  {
    BroadcastForeign(table, port, ps, c.userPid, Insert(gid, c.userPid), other);
    ForeignConcat(other, [Joined(gid, c.userPid)], Probes(port, hostRemote, c.urls));
    ForeignConcat(other, [Joined(gid, c.userPid)] + Probes(port, hostRemote, c.urls),
                  Broadcast(table, port, ps, c.userPid, Insert(gid, c.userPid)));
  }

  // Whoever stays keeps an exact roster exactly if it is reached on the secure port.
  lemma ToldLeaveIff(log: seq<Event>, table: map<Key, ConnId>, port: Port, gid: Gid, ps: seq<Participant>, pid: Pid,
                     p: Participant)
    requires p in Without(ps, ByPid(pid)) && pid in Pids(ps) && Told(log, gid, ps, p)
    ensures Told(log + LeaveEvents(table, port, gid, pid, Without(ps, ByPid(pid))), gid, Without(ps, ByPid(pid)), p)
       <==> port == Secure && Key(Secure, p.remote) in table
  {
    hide ClientRoster, Stale, Pids, Broadcast, Without;
    var rest := Without(ps, ByPid(pid));
    var erases := Broadcast(table, port, rest, pid, Erase(gid, pid));
    LeavePids(ps, pid);
    RosterSnoc(log, Left(gid, pid), gid, p.pid, p.remote);
    if port == Secure {
      RosterBroadcast(log + [Left(gid, pid)], table, rest, pid, Erase(gid, pid), gid, p.pid, p.remote);
    } else {
      BroadcastOffPort(table, rest, pid, Erase(gid, pid));
      RosterOffPort(log + [Left(gid, pid)], erases, gid, p.pid, p.remote);
    }
    assert log + LeaveEvents(table, port, gid, pid, rest) == log + [Left(gid, pid)] + erases;
  }

  lemma LeaveForeign(table: map<Key, ConnId>, port: Port, gid: Gid, pid: Pid, rest: seq<Participant>, other: Gid)
    requires other != gid
    ensures AllForeign(other, LeaveEvents(table, port, gid, pid, rest))
  {
    BroadcastForeign(table, port, rest, pid, Erase(gid, pid), other);
    ForeignConcat(other, [Left(gid, pid)], Broadcast(table, port, rest, pid, Erase(gid, pid)));
  }

  predicate LeaveHeard(w: World, port: Port, rest: seq<Participant>) {
    forall p | p in rest :: port == Secure && Key(Secure, p.remote) in w.table
  }

  // A leave that takes effect keeps all rosters replicated exactly if everybody who stays hears of it.
  lemma LeaveIff(w: World, port: Port, c: Conn, params: seq<Byte>)
    requires Inv(w) && Replicated(w) && GidOf(params) in w.reg.byId
    requires c.userPid in Pids(w.reg.byId[GidOf(params)].participants)
    ensures Replicated(LeaveGathering(w, port, c, params))
       <==> LeaveHeard(w, port, Without(w.reg.byId[GidOf(params)].participants, ByPid(c.userPid)))
  {
    hide LeaveEvents, Told, Pids, TimersOk, TableOk, HostsOk, LobbiesOk, Consistent, Without;
    var w' := LeaveGathering(w, port, c, params);
    var gid := GidOf(params);
    var ps := w.reg.byId[gid].participants;
    var rest := Without(ps, ByPid(c.userPid));
    LeavePids(ps, c.userPid);
    LeaveShrinks(ps, c.userPid);
    assert w'.log == w.log + LeaveEvents(w.table, port, gid, c.userPid, rest) && w'.reg.byId[gid].participants == rest;
    forall p | p in rest
      ensures Told(w'.log, gid, rest, p) <==> port == Secure && Key(Secure, p.remote) in w.table
    {
      ToldLeaveIff(w.log, w.table, port, gid, ps, c.userPid, p);
    }
    forall g, p | g in w'.reg.byId && g != gid && p in w'.reg.byId[g].participants
      ensures Told(w'.log, g, w'.reg.byId[g].participants, p)
    {
      LeaveForeign(w.table, port, gid, c.userPid, rest, g);
      ToldForeign(w.log, LeaveEvents(w.table, port, gid, c.userPid, rest), g, w.reg.byId[g].participants, p);
    }
  }

  lemma LeaveShrinks(ps: seq<Participant>, pid: Pid)
    requires pid in Pids(ps)
    ensures |Without(ps, ByPid(pid))| != |ps|
  {
    var p :| p in ps && p.pid == pid;
    assert p !in Without(ps, ByPid(pid));
    if |Without(ps, ByPid(pid))| == |ps| { WithoutSameSize(ps, ByPid(pid)); }
  }

  lemma ReplicatedDestroy(w: World, port: Port, c: Conn, params: seq<Byte>)
    requires Replicated(w)
    ensures Replicated(DestroyGathering(w, port, c, params))
  {
    var w' := DestroyGathering(w, port, c, params);
    if w' != w {
      var gid := GidOf(params);
      var es := Broadcast(w.table, port, w.reg.byId[gid].participants, c.userPid, Erase(gid, c.userPid));
      forall g | g in w'.reg.byId ensures AllForeign(g, es) {
        BroadcastForeign(w.table, port, w.reg.byId[gid].participants, c.userPid, Erase(gid, c.userPid), g);
      }
      ReplicatedForeign(w, w', es);
    }
  }

  // ---- match requests and timers say nothing about rosters ----------------------------------------

  lemma MatchesAreForeign(es: seq<Event>, gid: Gid)
    requires AllAboutMatches(es)
    ensures AllForeign(gid, es)
  {
  }

  lemma ReplicatedMatch(w: World, port: Port, id: ConnId, call: Call)
    requires Replicated(w) && id < |w.conns| && MatchCall(call)
    ensures Replicated(Handle(w, port, id, call))
  {
    var es := MatchEvents(w, port, id, call);
    MatchSamePeople(w, port, id, call);
    forall g ensures AllForeign(g, es) { MatchesAreForeign(es, g); }
    ReplicatedForeign(w, Handle(w, port, id, call), es);
  }

  lemma ReplicatedTimeout(w: World, t: TimerId)
    requires Replicated(w)
    ensures Replicated(OnTimeout(w, t))
  {
    if t in w.timers && w.timers[t].gid in w.reg.byId {
      var w1 := w.(timers := w.timers - {t});
      var es := FireEvents(w1, w.timers[t].port, w.timers[t].gid, TimedOut);
      forall g ensures AllForeign(g, es) { MatchesAreForeign(es, g); }
      if OnTimeout(w, t).log == w.log {
        assert w.log == w.log + [];
        ReplicatedForeign(w, OnTimeout(w, t), []);
      } else {
        ReplicatedForeign(w, OnTimeout(w, t), es);
      }
    }
  }

  // ---- exactly which steps keep the rosters ----------------------------------------------------------

  // A membership step is heard if everybody concerned can be told: a caller can check it before the step.
  ghost predicate Heard(w: World, s: Step) {
    s.Request? && Established(w, s.port, s.remote).Some? ==>
      var id := Established(w, s.port, s.remote).value;
      var c := w.conns[id];
      match s.call
      case Join(params) =>
        |params| >= 4 && GidOf(params) in w.reg.byId && Admits(w, w.reg.byId[GidOf(params)], c.userPid) ==>
          JoinHeard(w, s.port, c, GidOf(params),
                    Admit(w.reg.byId[GidOf(params)].participants, Participant(c.userPid, c.remote, Some(id))))
      case Leave(params) =>
        GidOf(params) in w.reg.byId && c.userPid in Pids(w.reg.byId[GidOf(params)].participants) ==>
          LeaveHeard(w, s.port, Without(w.reg.byId[GidOf(params)].participants, ByPid(c.userPid)))
      case _ => true
  }

  // Any step from any state whose rosters agree: they agree afterwards if and only if the step is heard.
  lemma KeepsRostersIff(w: World, s: Step)
    requires Inv(w) && Replicated(w)
    ensures Replicated(Next(w, s)) <==> Heard(w, s)
  {
    hide Inv, Replicated, JoinHeard, LeaveHeard, Handle, OnTimeout, ReapAll, HandleDisconnect, HandleSyn, HandleConnect;
    match s
    case Syn(port, remote) => ReplicatedTransport(w, s);
    case Connect(port, remote, signatureOk, ticket) => ReplicatedTransport(w, s);
    case Disconnect(port, remote) => ReplicatedDisconnect(w, port, remote);
    case Reap(port, stale) => ReplicatedReap(w, port, stale);
    case Expire(t) => ReplicatedTimeout(w, t);
    case Request(port, remote, call) =>
      if Established(w, port, remote).Some? {
        RequestIff(w, port, remote, call);
      }
  }

  lemma ReplicatedTransport(w: World, s: Step)
    requires Replicated(w) && (s.Syn? || s.Connect?)
    ensures Replicated(Next(w, s))
  {
    hide Told;
  }

  lemma RequestIff(w: World, port: Port, remote: Remote, call: Call)
    requires Inv(w) && Replicated(w) && Established(w, port, remote).Some?
    ensures Replicated(Handle(w, port, Established(w, port, remote).value, call))
        <==> Heard(w, Request(port, remote, call))
  {
    hide Inv, Replicated, JoinHeard, LeaveHeard, Established, Admits, Admit, Pids, Without, JoinGathering,
         LeaveGathering,
         DestroyGathering, CreateGathering;
    var id := EstablishedId(w, port, remote);
    var c := w.conns[id];
    if MatchCall(call) {
      ReplicatedMatch(w, port, id, call);
    } else {
      match call
      case Create(raw) => ReplicatedCreate(w, id, c, raw);
      case Destroy(params) => ReplicatedDestroy(w, port, c, params);
      case Join(params) =>
        if |params| >= 4 && GidOf(params) in w.reg.byId && Admits(w, w.reg.byId[GidOf(params)], c.userPid) {
          JoinIff(w, port, id, c, params);
        } else {
          RefusedJoin(w, port, id, c, params);
        }
      case Leave(params) =>
        if GidOf(params) in w.reg.byId && c.userPid in Pids(w.reg.byId[GidOf(params)].participants) {
          LeaveIff(w, port, c, params);
        } else {
          IdleLeave(w, port, c, params);
        }
    }
  }

  lemma EstablishedId(w: World, port: Port, remote: Remote) returns (id: ConnId)
    requires Established(w, port, remote).Some?
    ensures id == Established(w, port, remote).value && id < |w.conns|
  {
    id := Established(w, port, remote).value;
  }

  lemma RefusedJoin(w: World, port: Port, id: ConnId, c: Conn, params: seq<Byte>)
    requires !(|params| >= 4 && GidOf(params) in w.reg.byId && Admits(w, w.reg.byId[GidOf(params)], c.userPid))
    ensures JoinGathering(w, port, id, c, params) == w
  {
  }

  lemma IdleLeave(w: World, port: Port, c: Conn, params: seq<Byte>)
    requires !(GidOf(params) in w.reg.byId && c.userPid in Pids(w.reg.byId[GidOf(params)].participants))
    ensures LeaveGathering(w, port, c, params) == w
  {
    if GidOf(params) in w.reg.byId {
      LeavePids(w.reg.byId[GidOf(params)].participants, c.userPid);
    }
  }
}
