/**
  What every step of the lobby server keeps: registry consistency, roster shape,
  slot accounting, the state of the end-of-match batch and of its timer.
*/
module Invariants {
  import opened Options
  import opened Bytes
  import opened SparkGame
  import opened Lobbies
  import opened Machine
  import SparkStats
  import Career

  // A batch has a timer exactly while it has reports, and then somebody is still missing.
  predicate BatchOk(l: Lobby) {
    && (l.received != {} <==> l.timer.Some?)
    && (l.received != {} ==> !(l.expected <= l.received))
  }

  // No lobby is over its cap or over the public slots its host configured; nobody is ever invited.
  predicate RosterOk(l: Lobby) {
    && Distinct(l.participants) && |l.participants| <= MAX_PARTICIPANTS
    && l.invited == {}
    && Joiners(l.participants, l.ownerPid, l.invited) <= PublicSlots(l.raw)
  }

  predicate LobbyOk(l: Lobby) { BatchOk(l) && RosterOk(l) }

  // Every key of a table points at a connection object for that port and remote.
  ghost predicate TableOk(w: World) {
    forall k | k in w.table ::
      w.table[k] < |w.conns| && w.conns[w.table[k]].port == k.port && w.conns[w.table[k]].remote == k.remote
  }

  // A pending timer is the current handle of its lobby or names an id that is dead for good;
  // a lobby's handle is pending and names that lobby.
  ghost predicate TimersOk(r: Registry, timers: map<TimerId, Timer>, nextTimer: TimerId) {
    && (forall t | t in timers :: t < nextTimer && timers[t].gid < r.nextId
          && (timers[t].gid in r.byId ==> r.byId[timers[t].gid].timer == Some(t)))
    && (forall g | g in r.byId && r.byId[g].timer.Some? ::
          r.byId[g].timer.value in timers && timers[r.byId[g].timer.value].gid == g)
  }

  ghost predicate HostsOk(w: World) {
    forall g | g in w.reg.byId :: w.reg.byId[g].hostConn.Some? && w.reg.byId[g].hostConn.value < |w.conns|
  }

  ghost predicate LobbiesOk(r: Registry) {
    forall g | g in r.byId :: LobbyOk(r.byId[g])
  }

  ghost predicate Inv(w: World) {
    && Consistent(w.reg) && TableOk(w) && HostsOk(w)
    && TimersOk(w.reg, w.timers, w.nextTimer)
    && LobbiesOk(w.reg)
  }

  // The fields of a lobby no request ever changes.
  predicate SameIdentity(l: Lobby, l': Lobby) {
    l'.id == l.id && l'.ownerPid == l.ownerPid && l'.ownerRemote == l.ownerRemote
    && l'.raw == l.raw && l'.hostConn == l.hostConn
  }

  // ---- what the broadcasts send -------------------------------------------------------

  predicate Carries(e: Event, push: Push) { e.Sent? && e.push == push }

  predicate AllCarry(es: seq<Event>, push: Push) { forall i | 0 <= i < |es| :: Carries(es[i], push) }

  lemma {:induction false} BroadcastSends(table: map<Key, ConnId>, port: Port, ps: seq<Participant>, subject: Pid,
                                          push: Push)
    ensures AllCarry(Broadcast(table, port, ps, subject, push), push)
  {
    if ps != [] {
      BroadcastSends(table, port, ps[..|ps| - 1], subject, push);
    }
  }

  predicate CarriesStats(e: Event, txns: map<Pid, nat>, gid: Gid) {
    e.Sent? && e.push.Stats? && e.push.gid == gid && e.push.txn == TxnOf(txns, e.push.recipient)
  }

  predicate AllCarryStats(es: seq<Event>, txns: map<Pid, nat>, gid: Gid) {
    forall i | 0 <= i < |es| :: CarriesStats(es[i], txns, gid)
  }

  lemma {:induction false} StatsSends(table: map<Key, ConnId>, txns: map<Pid, nat>, db: Career.Store,
                                      port: Port, gid: Gid, ps: seq<Participant>)
    ensures AllCarryStats(StatsPushes(table, txns, db, port, gid, ps), txns, gid)
  {
    if ps != [] {
      StatsSends(table, txns, db, port, gid, ps[..|ps| - 1]);
    }
  }

  // ---- lobby by lobby ------------------------------------------------------------

  lemma InvPut(w: World, w': World, gid: Gid, l: Lobby)
    requires Inv(w) && gid in w.reg.byId
    requires w'.reg == Put(w.reg, gid, l) && SameIdentity(w.reg.byId[gid], l) && LobbyOk(l)
    requires w'.table == w.table && w'.conns == w.conns
    requires TimersOk(w'.reg, w'.timers, w'.nextTimer)
    ensures Inv(w')
  {
    hide TimersOk, LobbyOk, LobbiesOk;
    PutConsistent(w.reg, gid, l);
    LobbiesPut(w.reg, gid, l);
  }

  lemma LobbiesPut(r: Registry, gid: Gid, l: Lobby)
    requires LobbiesOk(r) && LobbyOk(l)
    ensures LobbiesOk(Put(r, gid, l))
  {
  }

  lemma PutPut(r: Registry, gid: Gid, l: Lobby, l': Lobby)
    ensures Put(Put(r, gid, l), gid, l') == Put(r, gid, l')
  {
  }

  // A lobby that keeps its handle keeps the timers in order.
  lemma TimersPut(r: Registry, timers: map<TimerId, Timer>, nextTimer: TimerId, gid: Gid, l: Lobby)
    requires TimersOk(r, timers, nextTimer) && gid in r.byId && l.timer == r.byId[gid].timer
    ensures TimersOk(Put(r, gid, l), timers, nextTimer)
  {
  }

  // Dropping the handle together with the pending timer, or one without the other being there.
  lemma TimersDisarm(r: Registry, timers: map<TimerId, Timer>, nextTimer: TimerId, gid: Gid, l: Lobby)
    requires TimersOk(r, timers, nextTimer) && gid in r.byId && l.timer.None?
    ensures TimersOk(Put(r, gid, l), Unarmed(timers, r.byId[gid].timer), nextTimer)
  {
  }

  lemma TimersArm(r: Registry, timers: map<TimerId, Timer>, nextTimer: TimerId, gid: Gid, l: Lobby, port: Port)
    requires TimersOk(r, timers, nextTimer) && gid in r.byId && gid < r.nextId
    requires r.byId[gid].timer.None? && l.timer == Some(nextTimer)
    ensures TimersOk(Put(r, gid, l), timers[nextTimer := Timer(gid, port)], nextTimer + 1)
  {
  }

  // ---- roster operations -----------------------------------------------------------

  lemma AdmitRoster(l: Lobby, p: Participant)
    requires RosterOk(l) && !IsFull(l) && (p.pid in l.invited || PublicRemaining(l) > 0)
    ensures RosterOk(l.(participants := Admit(l.participants, p)))
    ensures Pids(Admit(l.participants, p)) == Pids(l.participants) + {p.pid}
  {
    hide Joiners;
    var ps := l.participants;
    match Find(ps, p.pid)
    case None =>
      JoinersSnoc(ps, p, l.ownerPid, l.invited);
      assert forall q | q in ps :: q.pid != p.pid by {
        forall q | q in ps ensures q.pid != p.pid { assert q.pid in Pids(ps); }
      }
      assert p in ps + [p];
    case Some(k) =>
      if p.conn.Some? {
        SameJoiners(ps, ps[k := ps[k].(conn := p.conn)], l.ownerPid, l.invited);
        SamePids(ps, ps[k := ps[k].(conn := p.conn)]);
      }
      assert ps[k] in ps;
  }

  lemma {:induction false} SameJoiners(ps: seq<Participant>, qs: seq<Participant>, owner: Pid, invited: set<Pid>)
    requires |ps| == |qs| && forall i | 0 <= i < |ps| :: ps[i].pid == qs[i].pid
    ensures Joiners(ps, owner, invited) == Joiners(qs, owner, invited)
  {
    if ps != [] {
      SameJoiners(ps[..|ps| - 1], qs[..|qs| - 1], owner, invited);
    }
  }

  lemma SamePids(ps: seq<Participant>, qs: seq<Participant>)
    requires |ps| == |qs| && forall i | 0 <= i < |ps| :: ps[i].pid == qs[i].pid
    ensures Pids(ps) == Pids(qs)
  {
    forall x | x in Pids(ps) ensures x in Pids(qs) {
      var i :| 0 <= i < |ps| && ps[i].pid == x;
      assert qs[i] in qs;
    }
    forall x | x in Pids(qs) ensures x in Pids(ps) {
      var i :| 0 <= i < |qs| && qs[i].pid == x;
      assert ps[i] in ps;
    }
  }

  lemma RemoveRoster(l: Lobby, who: Who)
    requires RosterOk(l)
    ensures RosterOk(l.(participants := Without(l.participants, who)))
  {
    WithoutDistinct(l.participants, who);
    WithoutFewerJoiners(l.participants, who, l.ownerPid, l.invited);
  }

  // ---- step by step -------------------------------------------------------------------

  lemma InvDisconnect(w: World, port: Port, remote: Remote)
    requires Inv(w)
    ensures Inv(HandleDisconnect(w, port, remote))
  {
    CloseConsistent(w.reg, remote);
    forall g | g in CloseRemote(w.reg, remote).byId ensures LobbyOk(CloseRemote(w.reg, remote).byId[g]) {
      RemoveRoster(w.reg.byId[g], ByRemote(remote));
    }
  }

  lemma {:induction false} InvReap(w: World, port: Port, stale: seq<Remote>)
    requires Inv(w)
    ensures Inv(ReapAll(w, port, stale))
    decreases stale
  {
    if stale != [] {
      InvDisconnect(w, port, stale[0]);
      InvReap(HandleDisconnect(w, port, stale[0]), port, stale[1..]);
    }
  }

  lemma InvCreate(w: World, id: ConnId, c: Conn, raw: seq<Byte>)
    requires Inv(w) && id < |w.conns|
    ensures Inv(CreateGathering(w, id, c, raw))
  {
    CreateConsistent(w.reg, c.userPid, c.remote, raw, Some(id));
    NewLobbyOk(w.reg.nextId, c.userPid, c.remote, raw, Some(id));
  }

  lemma NewLobbyOk(gid: Gid, pid: Pid, remote: Remote, raw: seq<Byte>, conn: Option<ConnId>)
    ensures LobbyOk(NewLobby(gid, pid, remote, raw, conn))
  {
    var ps := NewLobby(gid, pid, remote, raw, conn).participants;
    assert Joiners(ps, pid, {}) == 0 by { assert ps[..0] == []; }
  }

  lemma InvJoin(w: World, port: Port, id: ConnId, c: Conn, params: seq<Byte>)
    requires Inv(w)
    ensures Inv(JoinGathering(w, port, id, c, params))
  {
    hide TimersOk, Consistent, HostsOk, TableOk, JoinEvents, PublicRemaining, Joiners;
    var w' := JoinGathering(w, port, id, c, params);
    var gid := GidOf(params);
    if w' != w {
      var l := w.reg.byId[gid];
      AdmitRoster(l, Participant(c.userPid, c.remote, Some(id)));
      TimersPut(w.reg, w.timers, w.nextTimer, gid, w'.reg.byId[gid]);
      InvPut(w, w', gid, w'.reg.byId[gid]);
    }
  }

  lemma InvLeave(w: World, port: Port, c: Conn, params: seq<Byte>)
    requires Inv(w)
    ensures Inv(LeaveGathering(w, port, c, params))
  {
    hide TimersOk, Consistent, HostsOk, TableOk, LeaveEvents;
    var w' := LeaveGathering(w, port, c, params);
    var gid := GidOf(params);
    if w' != w {
      RemoveRoster(w.reg.byId[gid], ByPid(c.userPid));
      TimersPut(w.reg, w.timers, w.nextTimer, gid, w'.reg.byId[gid]);
      InvPut(w, w', gid, w'.reg.byId[gid]);
    }
  }

  lemma InvDestroy(w: World, port: Port, c: Conn, params: seq<Byte>)
    requires Inv(w)
    ensures Inv(DestroyGathering(w, port, c, params))
  {
    DestroyConsistent(w.reg, GidOf(params));
  }

  lemma InvSetClosed(w: World, gid: Gid, value: bool)
    requires Inv(w)
    ensures Inv(w.(reg := SetClosed(w.reg, gid, value)))
  {
    if gid in w.reg.byId {
      var l := w.reg.byId[gid].(closed := value);
      TimersPut(w.reg, w.timers, w.nextTimer, gid, l);
      InvPut(w, w.(reg := SetClosed(w.reg, gid, value)), gid, l);
    }
  }

  lemma InvSeeded(w: World, gid: Gid)
    requires Inv(w) && gid in w.reg.byId
    ensures Inv(Seeded(w, gid))
  {
    hide TimersOk, Consistent, HostsOk, TableOk, Joiners, Distinct, PublicSlots;
    var w' := Seeded(w, gid);
    if w' != w {
      TimersPut(w.reg, w.timers, w.nextTimer, gid, w'.reg.byId[gid]);
      InvPut(w, w', gid, w'.reg.byId[gid]);
    }
  }

  lemma InvCancel(w: World, gid: Gid)
    requires Inv(w) && gid in w.reg.byId
    ensures Inv(CancelBatch(w, gid))
  {
    TimersDisarm(w.reg, w.timers, w.nextTimer, gid, ClearBatch(w.reg.byId[gid]));
    InvPut(w, CancelBatch(w, gid), gid, ClearBatch(w.reg.byId[gid]));
  }

  lemma InvAttribute(w: World, port: Port, gid: Gid, pid: Pid)
    requires Inv(w) && gid in w.reg.byId && pid in Pids(w.reg.byId[gid].participants)
    ensures Inv(Attribute(w, port, gid, pid))
  {
    InvSeeded(w, gid);
    InvRecord(Seeded(w, gid), port, gid, pid);
  }

  lemma InvRecord(w: World, port: Port, gid: Gid, pid: Pid)
    requires Inv(w) && gid in w.reg.byId
    ensures Inv(Record(w, port, gid, pid))
  {
    hide TimersOk, StatsPushes, TableOk, HostsOk, Joiners, Distinct, PublicSlots, Ascending, Unarmed;
    var w' := Record(w, port, gid, pid);
    var l := w.reg.byId[gid].(received := w.reg.byId[gid].received + {pid});
    if l.expected <= l.received {
      TimersDisarm(w.reg, w.timers, w.nextTimer, gid, ClearBatch(l));
      PutPut(w.reg, gid, l, ClearBatch(l));
      InvPut(w, w', gid, ClearBatch(l));
    } else if l.timer.None? {
      var armed := l.(timer := Some(w.nextTimer));
      TimersArm(w.reg, w.timers, w.nextTimer, gid, armed, port);
      PutPut(w.reg, gid, l, armed);
      InvPut(w, w', gid, armed);
    } else {
      TimersPut(w.reg, w.timers, w.nextTimer, gid, l);
      InvPut(w, w', gid, l);
    }
  }

  // What replacing one lobby's batch leaves alone.
  ghost predicate OnlyBatchOf(w: World, w': World, gid: Gid)
    requires gid in w.reg.byId
  {
    && gid in w'.reg.byId && w'.reg == Put(w.reg, gid, w'.reg.byId[gid])
    && w'.table == w.table && w'.conns == w.conns && w'.db == w.db && w'.txns == w.txns
    && SameRoster(w.reg.byId[gid], w'.reg.byId[gid])
  }

  lemma RecordOnlyBatch(w: World, port: Port, gid: Gid, pid: Pid)
    requires gid in w.reg.byId
    ensures OnlyBatchOf(w, Record(w, port, gid, pid), gid)
  {
    hide StatsPushes, Unarmed, Pids;
    var l := w.reg.byId[gid].(received := w.reg.byId[gid].received + {pid});
    PutPut(w.reg, gid, l, ClearBatch(l));
    PutPut(w.reg, gid, l, l.(timer := Some(w.nextTimer)));
  }

  // A report touches one lobby, and there only the batch.
  lemma AttributeOnlyBatch(w: World, port: Port, gid: Gid, pid: Pid)
    requires gid in w.reg.byId
    ensures OnlyBatchOf(w, Attribute(w, port, gid, pid), gid)
  {
    var w1, w2 := Seeded(w, gid), Attribute(w, port, gid, pid);
    assert OnlyBatchOf(w, w1, gid);
    RecordOnlyBatch(w1, port, gid, pid);
    PutPut(w.reg, gid, w1.reg.byId[gid], w2.reg.byId[gid]);
  }

  // Registries with the same lobbies and the same people in them.
  predicate SameRosters(r: Registry, r': Registry) {
    && r'.byId.Keys == r.byId.Keys && r'.nextId == r.nextId
    && forall g | g in r'.byId :: SameIdentity(r.byId[g], r'.byId[g])
        && r'.byId[g].participants == r.byId[g].participants
  }

  // What reports, and everything else about matches, leave alone.
  predicate SamePeople(w: World, w': World) {
    SameRosters(w.reg, w'.reg) && w'.table == w.table
  }

  lemma AttributedSamePeople(w: World, port: Port, pid: Pid)
    ensures SamePeople(w, Attributed(w, port, pid)) && Attributed(w, port, pid).db == w.db
  {
    var home := FirstWith(w.reg, w.reg.order, pid);
    if home.Some? {
      AttributeOnlyBatch(w, port, home.value, pid);
    }
  }

  lemma CountedSamePeople(w: World, port: Port, pid: Pid, v0: seq<Word>)
    ensures SamePeople(w, Counted(w, port, pid, v0)) && Counted(w, port, pid, v0).db == w.db
  {
    hide Attributed;
    AttributedSamePeople(w.(txns := w.txns[pid := TxnOf(w.txns, pid) + 1]), port, pid);
  }

  predicate SameRoster(l: Lobby, l': Lobby) {
    SameIdentity(l, l') && l'.participants == l.participants && l'.invited == l.invited && l'.closed == l.closed
  }

  lemma InvReport(w: World, port: Port, c: Conn, params: seq<Byte>, writeOk: bool)
    requires Inv(w)
    ensures Inv(ReportStats(w, port, c, params, writeOk))
  {
    var pid := c.userPid;
    if params != [] {
      var found := SparkStats.SenderEntry(params, pid);
      var v0 := if found.Some? then found.value.vec0 else [];
      var v1 := if found.Some? then found.value.vec1 else [];
      match Stored(w, pid, v0, v1, writeOk)
      case None =>
      case Some(w1) =>
        assert Inv(w1);
        InvCounted(w1, port, pid, v0);
    }
  }

  lemma InvCounted(w: World, port: Port, pid: Pid, v0: seq<Word>)
    requires Inv(w)
    ensures Inv(Counted(w, port, pid, v0))
  {
    hide Attributed, Inv;
    var w1 := w.(txns := w.txns[pid := TxnOf(w.txns, pid) + 1]);
    InvSameRegistry(w, w1);
    if Loggable(v0) {
      InvAttributed(w1, port, pid);
      InvSameRegistry(Attributed(w1, port, pid), Counted(w, port, pid, v0));
    } else {
      InvSameRegistry(w1, Counted(w, port, pid, v0));
    }
  }

  lemma InvAttributed(w: World, port: Port, pid: Pid)
    requires Inv(w)
    ensures Inv(Attributed(w, port, pid))
  {
    var home := FirstWith(w.reg, w.reg.order, pid);
    if home.Some? {
      InvAttribute(w, port, home.value, pid);
    }
  }

  // The invariant is about connections, registry and timers only.
  lemma InvSameRegistry(w: World, w': World)
    requires w'.table == w.table && w'.conns == w.conns && w'.reg == w.reg
    requires w'.timers == w.timers && w'.nextTimer == w.nextTimer
    ensures Inv(w) ==> Inv(w')
  {
  }

  lemma InvTimeout(w: World, t: TimerId)
    requires Inv(w)
    ensures Inv(OnTimeout(w, t))
  {
    hide StatsPushes;
    if t in w.timers {
      var Timer(gid, port) := w.timers[t];
      var w1 := w.(timers := w.timers - {t});
      if gid in w.reg.byId {
        assert Unarmed(w.timers, w.reg.byId[gid].timer) == Unarmed(w1.timers, w.reg.byId[gid].timer);
        TimersDisarm(w.reg, w.timers, w.nextTimer, gid, ClearBatch(w.reg.byId[gid]));
        InvPut(w, OnTimeout(w, t), gid, ClearBatch(w.reg.byId[gid]));
      }
    }
  }

  lemma InvClose(w: World, params: seq<Byte>)
    requires Inv(w)
    ensures Inv(CloseParticipation(w, params))
  {
    InvSetClosed(w, GidOf(params), true);
    if GidOf(params) in w.reg.byId {
      InvSeeded(w.(reg := SetClosed(w.reg, GidOf(params), true)), GidOf(params));
    }
  }

  lemma InvEndGame(w: World, c: Conn, params: seq<Byte>)
    requires Inv(w)
    ensures Inv(HandleEndGame(w, c, params))
  {
    var target := EndGameTarget(w, GidOf(params), c.userPid);
    if target.Some? {
      InvCancel(w, target.value);
    }
  }

  lemma InvRegister(w: World, port: Port, id: ConnId, lan: seq<string>, wan: string)
    requires Inv(w) && id < |w.conns|
    ensures Inv(Handle(w, port, id, RegisterEx(lan, wan)))
  {
  }

  lemma InvHandle(w: World, port: Port, id: ConnId, call: Call)
    requires Inv(w) && id < |w.conns|
    ensures Inv(Handle(w, port, id, call))
  {
    hide Inv, CreateGathering, JoinGathering, LeaveGathering, DestroyGathering, CloseParticipation, HandleEndGame,
      ReportStats;
    var c := w.conns[id];
    match call
    case RegisterEx(lan, wan) => InvRegister(w, port, id, lan, wan);
    case Create(raw) => InvCreate(w, id, c, raw);
    case Join(params) => InvJoin(w, port, id, c, params);
    case Leave(params) => InvLeave(w, port, c, params);
    case Destroy(params) => InvDestroy(w, port, c, params);
    case Close(params) => InvClose(w, params);
    case Open(params) => InvSetClosed(w, GidOf(params), false);
    case Report(params, writeOk) => InvReport(w, port, c, params, writeOk);
    case EndGame(params) => InvEndGame(w, c, params);
  }

  lemma InvNext(w: World, s: Step)
    requires Inv(w)
    ensures Inv(Next(w, s))
  {
    match s
    case Syn(port, remote) =>
    case Connect(port, remote, signatureOk, ticket) =>
    case Disconnect(port, remote) => InvDisconnect(w, port, remote);
    case Reap(port, stale) => InvReap(w, port, stale);
    case Request(port, remote, call) =>
      if Established(w, port, remote).Some? {
        InvHandle(w, port, Established(w, port, remote).value, call);
      }
    case Expire(t) => InvTimeout(w, t);
  }

  // Every reachable state satisfies the invariant: any number of players, lobbies and steps, in any order.
  lemma {:induction false} InvRun(w: World, steps: seq<Step>)
    requires Inv(w)
    ensures Inv(Run(w, steps))
    decreases steps
  {
    if steps != [] {
      InvNext(w, steps[0]);
      InvRun(Next(w, steps[0]), steps[1..]);
    }
  }
}
