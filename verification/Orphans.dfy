/**
  No lobby outlives its connections, and no gathering id is ever used twice.
*/
module Orphans {
  import opened Options
  import opened Bytes
  import opened Lobbies
  import opened Machine
  import opened Invariants
  import opened Batch

  // A connection table of one of `ports` has an entry for `remote`.
  predicate Live(table: map<Key, ConnId>, ports: set<Port>, remote: Remote) {
    exists port :: port in ports && Key(port, remote) in table
  }

  ghost predicate LobbyLive(table: map<Key, ConnId>, ports: set<Port>, l: Lobby) {
    Live(table, ports, l.ownerRemote) && forall p | p in l.participants :: Live(table, ports, p.remote)
  }

  // Every owner and participant sits behind a live connection.
  ghost predicate NoOrphans(w: World, ports: set<Port>) {
    forall g | g in w.reg.byId :: LobbyLive(w.table, ports, w.reg.byId[g])
  }

  // Lobbies are created and joined through `ports` only; anything else may happen anywhere.
  predicate EntersThrough(s: Step, ports: set<Port>) {
    s.Request? && (s.call.Create? || s.call.Join?) ==> s.port in ports
  }

  lemma NoOrphansDisconnect(w: World, ports: set<Port>, port: Port, remote: Remote)
    requires Inv(w) && NoOrphans(w, ports)
    ensures NoOrphans(HandleDisconnect(w, port, remote), ports)
  {
    var w' := HandleDisconnect(w, port, remote);
    CloseConsistent(w.reg, remote);
    CloseErases(w.reg, remote);
    forall g | g in w'.reg.byId ensures LobbyLive(w'.table, ports, w'.reg.byId[g]) {
      assert LobbyLive(w.table, ports, w.reg.byId[g]);
      LiveWithout(w.table, ports, w.reg.byId[g].ownerRemote, Key(port, remote));
      forall p | p in w'.reg.byId[g].participants ensures Live(w'.table, ports, p.remote) {
        LiveWithout(w.table, ports, p.remote, Key(port, remote));
      }
    }
  }

  lemma LiveWithout(table: map<Key, ConnId>, ports: set<Port>, remote: Remote, gone: Key)
    requires Live(table, ports, remote) && remote != gone.remote
    ensures Live(table - {gone}, ports, remote)
  {
    var port :| port in ports && Key(port, remote) in table;
    assert Key(port, remote) in table - {gone};
  }

  lemma {:induction false} NoOrphansReap(w: World, ports: set<Port>, port: Port, stale: seq<Remote>)
    requires Inv(w) && NoOrphans(w, ports)
    ensures NoOrphans(ReapAll(w, port, stale), ports)
    decreases stale
  {
    if stale != [] {
      InvDisconnect(w, port, stale[0]);
      NoOrphansDisconnect(w, ports, port, stale[0]);
      NoOrphansReap(HandleDisconnect(w, port, stale[0]), ports, port, stale[1..]);
    }
  }

  lemma ReportSamePeople(w: World, port: Port, c: Conn, params: seq<Byte>, writeOk: bool)
    ensures SamePeople(w, ReportStats(w, port, c, params, writeOk))
  {
    var counted, w1, es, v0 := ReportParts(w, port, c, params, writeOk);
    CountedSamePeople(w1, port, c.userPid, v0);
  }

  // The requests about matches, not about membership.
  predicate MatchCall(call: Call) {
    call.RegisterEx? || call.Close? || call.Open? || call.Report? || call.EndGame?
  }

  lemma MatchSamePeople(w: World, port: Port, id: ConnId, call: Call)
    requires id < |w.conns| && MatchCall(call)
    ensures SamePeople(w, Handle(w, port, id, call))
  {
    match call
    case RegisterEx(lan, wan) =>
    case Close(params) => CloseSamePeople(w, params);
    case Open(params) =>
    case Report(params, writeOk) => ReportSamePeople(w, port, w.conns[id], params, writeOk);
    case EndGame(params) => EndGameSamePeople(w, w.conns[id], params);
  }

  lemma CloseSamePeople(w: World, params: seq<Byte>)
    ensures SamePeople(w, CloseParticipation(w, params))
  {
    hide Pids;
  }

  lemma EndGameSamePeople(w: World, c: Conn, params: seq<Byte>)
    ensures SamePeople(w, HandleEndGame(w, c, params))
  {
    hide Unarmed;
  }

  lemma NoOrphansCreate(w: World, ports: set<Port>, id: ConnId, c: Conn, raw: seq<Byte>)
    requires Inv(w) && NoOrphans(w, ports) && Live(w.table, ports, c.remote)
    ensures NoOrphans(CreateGathering(w, id, c, raw), ports)
  {
  }

  // One lobby replaced by one whose people are all live.
  lemma NoOrphansPut(w: World, w': World, ports: set<Port>, gid: Gid, l: Lobby)
    requires NoOrphans(w, ports) && w'.table == w.table && w'.reg == Put(w.reg, gid, l) && LobbyLive(w.table, ports, l)
    ensures NoOrphans(w', ports)
  {
  }

  lemma NoOrphansJoin(w: World, ports: set<Port>, port: Port, id: ConnId, c: Conn, params: seq<Byte>)
    requires NoOrphans(w, ports) && Live(w.table, ports, c.remote)
    ensures NoOrphans(JoinGathering(w, port, id, c, params), ports)
  {
    var w' := JoinGathering(w, port, id, c, params);
    if w' != w {
      var l := w.reg.byId[GidOf(params)];
      var ps := Admit(l.participants, Participant(c.userPid, c.remote, Some(id)));
      assert LobbyLive(w.table, ports, l);
      forall p | p in ps ensures Live(w.table, ports, p.remote) {
        assert p.remote == c.remote || exists q :: q in l.participants && q.remote == p.remote;
      }
      NoOrphansPut(w, w', ports, GidOf(params), l.(participants := ps));
    }
  }

  lemma NoOrphansLeave(w: World, ports: set<Port>, port: Port, c: Conn, params: seq<Byte>)
    requires NoOrphans(w, ports)
    ensures NoOrphans(LeaveGathering(w, port, c, params), ports)
  {
    var w' := LeaveGathering(w, port, c, params);
    if w' != w {
      var l := w.reg.byId[GidOf(params)];
      assert LobbyLive(w.table, ports, l);
      NoOrphansPut(w, w', ports, GidOf(params), l.(participants := Without(l.participants, ByPid(c.userPid))));
    }
  }

  lemma NoOrphansDestroy(w: World, ports: set<Port>, port: Port, c: Conn, params: seq<Byte>)
    requires NoOrphans(w, ports)
    ensures NoOrphans(DestroyGathering(w, port, c, params), ports)
  {
  }

  lemma NoOrphansSyn(w: World, ports: set<Port>, port: Port, remote: Remote)
    requires NoOrphans(w, ports)
    ensures NoOrphans(HandleSyn(w, port, remote), ports)
  {
    forall r | Live(w.table, ports, r) ensures Live(HandleSyn(w, port, remote).table, ports, r) {
      var p :| p in ports && Key(p, r) in w.table;
      assert Key(p, r) in HandleSyn(w, port, remote).table;
    }
  }

  lemma NoOrphansTimeout(w: World, ports: set<Port>, t: TimerId)
    requires NoOrphans(w, ports)
    ensures NoOrphans(OnTimeout(w, t), ports)
  {
    assert SamePeople(w, OnTimeout(w, t));
  }

  lemma NoOrphansNext(w: World, ports: set<Port>, s: Step)
    requires Inv(w) && NoOrphans(w, ports) && EntersThrough(s, ports)
    ensures NoOrphans(Next(w, s), ports)
  {
    hide Consistent, HostsOk, TimersOk, LobbiesOk, LobbyLive, Handle, ReapAll, HandleDisconnect, HandleSyn, OnTimeout;
    match s
    case Syn(port, remote) =>
      NoOrphansSyn(w, ports, port, remote);
    case Connect(port, remote, signatureOk, ticket) =>
    case Disconnect(port, remote) => NoOrphansDisconnect(w, ports, port, remote);
    case Reap(port, stale) => NoOrphansReap(w, ports, port, stale);
    case Expire(t) =>
      NoOrphansTimeout(w, ports, t);
    case Request(port, remote, call) =>
      if Established(w, port, remote).Some? {
        var id := Established(w, port, remote).value;
        assert Key(port, remote) in w.table && w.conns[id].remote == remote;
        NoOrphansHandle(w, ports, port, id, call);
      }
  }

  lemma NoOrphansHandle(w: World, ports: set<Port>, port: Port, id: ConnId, call: Call)
    requires Inv(w) && NoOrphans(w, ports) && id < |w.conns|
    requires call.Create? || call.Join? ==> Live(w.table, ports, w.conns[id].remote)
    ensures NoOrphans(Handle(w, port, id, call), ports)
  {
    var c := w.conns[id];
    match call
    case Create(raw) => NoOrphansCreate(w, ports, id, c, raw);
    case Join(params) => NoOrphansJoin(w, ports, port, id, c, params);
    case Leave(params) => NoOrphansLeave(w, ports, port, c, params);
    case Destroy(params) => NoOrphansDestroy(w, ports, port, c, params);
    case _ => MatchSamePeople(w, port, id, call);
  }

  lemma {:induction false} NoOrphansRun(w: World, ports: set<Port>, steps: seq<Step>)
    requires Inv(w) && NoOrphans(w, ports) && forall s | s in steps :: EntersThrough(s, ports)
    ensures Inv(Run(w, steps)) && NoOrphans(Run(w, steps), ports)
    decreases steps
  {
    if steps != [] {
      InvNext(w, steps[0]);
      NoOrphansNext(w, ports, steps[0]);
      NoOrphansRun(Next(w, steps[0]), ports, steps[1..]);
    }
  }

  // In every reachable state every owner's and participant's remote is a key of a connection table,
  // whatever was replaced by a SYN, disconnected, reaped or re-joined on the way.
  lemma EveryLobbyIsConnected(steps: seq<Step>, gid: Gid)
    requires gid in Run(START, steps).reg.byId
    ensures LobbyLive(Run(START, steps).table, {Auth, Secure}, Run(START, steps).reg.byId[gid])
  {
    forall s | s in steps ensures EntersThrough(s, {Auth, Secure}) {
      if s.Request? { assert s.port == Auth || s.port == Secure; }
    }
    NoOrphansRun(START, {Auth, Secure}, steps);
  }

  // ---- ids ------------------------------------------------------------------------------

  // An id that was handed out and is dead stays dead.
  ghost predicate Retired(r: Registry, gid: Gid) { gid < r.nextId && gid !in r.byId }

  lemma RetiredNext(w: World, s: Step, gid: Gid)
    requires Inv(w) && Retired(w.reg, gid)
    ensures Retired(Next(w, s).reg, gid)
  {
    hide TableOk, HostsOk, TimersOk, LobbiesOk, ReportStats, ReapAll, Admits, JoinEvents, StatsPushes, Broadcast,
         Unarmed, NewLobby, Ascending, Without, Restrict, FirstWith;
    match s
    case Disconnect(port, remote) => CloseConsistent(w.reg, remote);
    case Reap(port, stale) => RetiredReap(w, port, stale, gid);
    case Request(port, remote, call) =>
      if Established(w, port, remote).Some? && call.Report? {
        RetiredReport(w, port, w.conns[Established(w, port, remote).value], call.params, call.writeOk, gid);
      }
    case _ =>
  }

  lemma {:induction false} RetiredReap(w: World, port: Port, stale: seq<Remote>, gid: Gid)
    requires Inv(w) && Retired(w.reg, gid)
    ensures Retired(ReapAll(w, port, stale).reg, gid)
    decreases stale
  {
    if stale != [] {
      CloseConsistent(w.reg, stale[0]);
      InvDisconnect(w, port, stale[0]);
      RetiredReap(HandleDisconnect(w, port, stale[0]), port, stale[1..], gid);
    }
  }

  lemma RetiredReport(w: World, port: Port, c: Conn, params: seq<Byte>, writeOk: bool, gid: Gid)
    requires Retired(w.reg, gid)
    ensures Retired(ReportStats(w, port, c, params, writeOk).reg, gid)
  {
    ReportSamePeople(w, port, c, params, writeOk);
  }

  lemma {:induction false} IdsNeverReused(w: World, steps: seq<Step>, gid: Gid)
    requires Inv(w) && Retired(w.reg, gid)
    ensures Retired(Run(w, steps).reg, gid)
    decreases steps
  {
    if steps != [] {
      InvNext(w, steps[0]);
      RetiredNext(w, steps[0], gid);
      IdsNeverReused(Next(w, steps[0]), steps[1..], gid);
    }
  }

  // ---- how lobbies end --------------------------------------------------------------------

  // The step is the host's own: it creates another lobby, destroys this one, or its remote goes away.
  predicate HostEnds(w: World, s: Step, gid: Gid)
    requires gid in w.reg.byId
  {
    var l := w.reg.byId[gid];
    match s
    case Disconnect(_, remote) => remote == l.ownerRemote
    case Reap(_, stale) => l.ownerRemote in stale
    case Request(port, remote, call) =>
      Established(w, port, remote).Some? && w.conns[Established(w, port, remote).value].userPid == l.ownerPid
      && (call.Create? || (call.Destroy? && GidOf(call.params) == gid))
    case _ => false
  }

  // A lobby disappears in a step exactly if the step is its host's: nobody else's request, and no timer, ends it.
  lemma LobbiesEndWithTheirHost(w: World, s: Step, gid: Gid)
    requires Inv(w) && gid in w.reg.byId
    ensures gid !in Next(w, s).reg.byId <==> HostEnds(w, s, gid)
  {
    hide TableOk, HostsOk, TimersOk, LobbiesOk, Handle, OnTimeout, ReapAll, CloseRemote;
    match s
    case Disconnect(port, remote) => CloseConsistent(w.reg, remote);
    case Reap(port, stale) => ReapEnds(w, port, stale, gid);
    case Expire(t) => TimeoutEndsNothing(w, t);
    case Request(port, remote, call) =>
      if Established(w, port, remote).Some? {
        RequestEnds(w, port, Established(w, port, remote).value, call, gid);
      }
    case Syn(_, _) =>
    case Connect(_, _, _, _) =>
  }

  lemma TimeoutEndsNothing(w: World, t: TimerId)
    ensures OnTimeout(w, t).reg.byId.Keys == w.reg.byId.Keys
  {
    hide StatsPushes, Unarmed;
  }

  lemma {:induction false} ReapEnds(w: World, port: Port, stale: seq<Remote>, gid: Gid)
    requires Consistent(w.reg) && gid in w.reg.byId
    ensures gid !in ReapAll(w, port, stale).reg.byId <==> w.reg.byId[gid].ownerRemote in stale
    decreases stale
  {
    hide CloseRemote, Consistent, DroppedBy;
    if stale != [] {
      var w1 := HandleDisconnect(w, port, stale[0]);
      CloseConsistent(w.reg, stale[0]);
      assert w.reg.byId[gid].ownerRemote in stale <==>
             w.reg.byId[gid].ownerRemote == stale[0] || w.reg.byId[gid].ownerRemote in stale[1..];
      if gid in w1.reg.byId {
        ReapEnds(w1, port, stale[1..], gid);
      } else {
        ReapRevivesNobody(w1, port, stale[1..], gid);
      }
    }
  }

  lemma {:induction false} ReapRevivesNobody(w: World, port: Port, stale: seq<Remote>, gid: Gid)
    requires Consistent(w.reg) && gid !in w.reg.byId
    ensures gid !in ReapAll(w, port, stale).reg.byId
    decreases stale
  {
    hide CloseRemote, Consistent, DroppedBy;
    if stale != [] {
      CloseConsistent(w.reg, stale[0]);
      ReapRevivesNobody(HandleDisconnect(w, port, stale[0]), port, stale[1..], gid);
    }
  }

  lemma RequestEnds(w: World, port: Port, id: ConnId, call: Call, gid: Gid)
    requires Consistent(w.reg) && id < |w.conns| && gid in w.reg.byId
    ensures gid !in Handle(w, port, id, call).reg.byId
       <==> (&& w.conns[id].userPid == w.reg.byId[gid].ownerPid
             && (call.Create? || (call.Destroy? && GidOf(call.params) == gid)))
  {
    hide Admits, JoinEvents, LeaveEvents, ReportStats, CloseParticipation, HandleEndGame, OpenParticipation,
         Ascending, Restrict, NewLobby;
    if MatchCall(call) {
      MatchSamePeople(w, port, id, call);
    }
  }
}
