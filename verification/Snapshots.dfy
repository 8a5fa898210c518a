/**
  Who a batch waits for: reading creations, joins, leaves and closes off the log
  gives each lobby's members, and every snapshot ever taken is exactly the
  members at that moment.
*/
module Snapshots {
  import opened Options
  import opened Bytes
  import opened Lobbies
  import opened Machine
  import opened Invariants
  import opened Batch
  import opened Roster

  function Account(members: set<Pid>, gid: Gid, e: Event): set<Pid> {
    match e
    case Created(g, p) => if g == gid then {p} else members
    case Joined(g, p) => if g == gid then members + {p} else members
    case Left(g, p) => if g == gid then members - {p} else members
    case Closed(_, dropped) => if gid in dropped then members - dropped[gid] else members
    case _ => members
  }

  function Members(log: seq<Event>, gid: Gid): set<Pid> {
    if log == [] then {} else Account(Members(log[..|log| - 1], gid), gid, log[|log| - 1])
  }

  lemma MembersSnoc(log: seq<Event>, e: Event, gid: Gid)
    ensures Members(log + [e], gid) == Account(Members(log, gid), gid, e)
  {
    assert (log + [e])[..|log|] == log;
  }

  // A snapshot is timely if it lists the members so far.
  predicate Timely(log: seq<Event>, e: Event) { e.Snapshot? ==> e.pids == Members(log, e.gid) }

  predicate AllTimely(log: seq<Event>) { forall i | 0 <= i < |log| :: Timely(log[..i], log[i]) }

  lemma TimelySnoc(log: seq<Event>, e: Event)
    requires AllTimely(log) && Timely(log, e)
    ensures AllTimely(log + [e])
  {
    forall i | 0 <= i < |log + [e]| ensures Timely((log + [e])[..i], (log + [e])[i]) {
      assert (log + [e])[..i] == log[..i];
    }
  }

  ghost predicate Known(w: World) {
    AllTimely(w.log) && forall g | g in w.reg.byId :: Members(w.log, g) == Pids(w.reg.byId[g].participants)
  }

  // Events that change no membership and take no snapshot.
  predicate Plain(e: Event) { !e.Created? && !e.Joined? && !e.Left? && !e.Closed? && !e.Snapshot? }

  predicate AllPlain(es: seq<Event>) { forall i | 0 <= i < |es| :: Plain(es[i]) }

  lemma {:induction false} PlainLog(log: seq<Event>, es: seq<Event>, gid: Gid)
    requires AllPlain(es)
    ensures Members(log + es, gid) == Members(log, gid) && (AllTimely(log) ==> AllTimely(log + es))
    decreases |es|
  {
    if es == [] {
      assert log + es == log;
    } else {
      var init, last := es[..|es| - 1], es[|es| - 1];
      PlainLog(log, init, gid);
      MembersSnoc(log + init, last, gid);
      if AllTimely(log) { TimelySnoc(log + init, last); }
      assert log + es == (log + init) + [last];
    }
  }

  lemma KnownPlain(w: World, w': World, es: seq<Event>)
    requires Known(w) && w'.log == w.log + es && AllPlain(es)
    requires forall g | g in w'.reg.byId :: g in w.reg.byId && w'.reg.byId[g].participants == w.reg.byId[g].participants
    ensures Known(w')
  {
    PlainLog(w.log, es, 0);
    forall g | g in w'.reg.byId ensures Members(w'.log, g) == Pids(w'.reg.byId[g].participants)
    {
      PlainLog(w.log, es, g);
    }
  }

  // One event that may change members, then plain ones.
  lemma KnownThen(w: World, w': World, e: Event, es: seq<Event>)
    requires Known(w) && !e.Snapshot? && w'.log == w.log + [e] + es && AllPlain(es)
    requires forall g | g in w'.reg.byId :: Account(Members(w.log, g), g, e) == Pids(w'.reg.byId[g].participants)
    ensures Known(w')
  {
    TimelySnoc(w.log, e);
    PlainLog(w.log + [e], es, 0);
    forall g | g in w'.reg.byId ensures Members(w'.log, g) == Pids(w'.reg.byId[g].participants) {
      MembersSnoc(w.log, e, g);
      PlainLog(w.log + [e], es, g);
    }
  }

  lemma KnownDisconnect(w: World, port: Port, remote: Remote)
    requires Inv(w) && Known(w)
    ensures Known(HandleDisconnect(w, port, remote))
  {
    hide Members, Pids, CloseRemote, DroppedBy, AllTimely, Account;
    var w' := HandleDisconnect(w, port, remote);
    var e := Closed(remote, DroppedBy(w.reg, remote));
    CloseConsistent(w.reg, remote);
    forall g | g in w'.reg.byId ensures Account(Members(w.log, g), g, e) == Pids(w'.reg.byId[g].participants) {
      MembersDropped(w.reg, remote, g, Members(w.log, g));
    }
    assert w'.log == w.log + [e] + [];
    KnownThen(w, w', e, []);
  }

  lemma MembersDropped(r: Registry, remote: Remote, gid: Gid, members: set<Pid>)
    requires Consistent(r) && LobbiesOk(r) && gid in CloseRemote(r, remote).byId
    requires gid in r.byId && members == Pids(r.byId[gid].participants)
    ensures Account(members, gid, Closed(remote, DroppedBy(r, remote)))
        == Pids(CloseRemote(r, remote).byId[gid].participants)
  {
    hide Pids, PidsAt, CloseRemote, OwnedFrom, DroppedBy, Ascending, Joiners, BatchOk;
    CloseErases(r, remote);
    CloseConsistent(r, remote);
    DroppedAt(r, remote, gid);
    assert LobbyOk(r.byId[gid]);
    DropPids(r.byId[gid].participants, remote);
  }

  lemma DroppedAt(r: Registry, remote: Remote, gid: Gid)
    requires gid in r.byId && r.byId[gid].ownerRemote != remote
    ensures gid in DroppedBy(r, remote) && DroppedBy(r, remote)[gid] == PidsAt(r.byId[gid].participants, remote)
  {
  }

  lemma {:induction false} KnownReap(w: World, port: Port, stale: seq<Remote>)
    requires Inv(w) && Known(w)
    ensures Known(ReapAll(w, port, stale))
    decreases stale
  {
    hide Inv, Known, HandleDisconnect;
    if stale != [] {
      InvDisconnect(w, port, stale[0]);
      KnownDisconnect(w, port, stale[0]);
      KnownReap(HandleDisconnect(w, port, stale[0]), port, stale[1..]);
    }
  }

  lemma KnownCreate(w: World, id: ConnId, c: Conn, raw: seq<Byte>)
    requires Inv(w) && Known(w)
    ensures Known(CreateGathering(w, id, c, raw))
  {
    var w' := CreateGathering(w, id, c, raw);
    var e := Created(w.reg.nextId, c.userPid);
    var first := Participant(c.userPid, c.remote, Some(id));
    assert Pids([first]) == {c.userPid} by { assert first in [first]; }
    assert w'.log == w.log + [e] + [];
    KnownThen(w, w', e, []);
  }

  lemma KnownJoin(w: World, port: Port, id: ConnId, c: Conn, params: seq<Byte>)
    requires Inv(w) && Known(w)
    ensures Known(JoinGathering(w, port, id, c, params))
  {
    hide Members, Pids, PublicRemaining, Joiners, JoinEvents, TableOk, HostsOk, TimersOk, U32, Ascending, Distinct;
    var w' := JoinGathering(w, port, id, c, params);
    var gid := GidOf(params);
    if |params| >= 4 && gid in w.reg.byId && Admits(w, w.reg.byId[gid], c.userPid) {
      var l := w.reg.byId[gid];
      AdmitRoster(l, Participant(c.userPid, c.remote, Some(id)));
      var es := JoinTail(w, w', port, id, c, gid);
      KnownThen(w, w', Joined(gid, c.userPid), es);
    }
  }

  // The pushes behind the Joined event.
  lemma JoinTail(w: World, w': World, port: Port, id: ConnId, c: Conn, gid: Gid) returns (es: seq<Event>)
    requires gid in w.reg.byId && gid in w'.reg.byId && w.reg.byId[gid].hostConn.Some?
        && w.reg.byId[gid].hostConn.value < |w.conns|
    requires w'.log == w.log + JoinEvents(w.table, port, w.conns[w.reg.byId[gid].hostConn.value].remote, c, gid,
                                          w'.reg.byId[gid].participants)
    ensures AllPlain(es) && w'.log == w.log + [Joined(gid, c.userPid)] + es
  {
    var ps := w'.reg.byId[gid].participants;
    var events := JoinEvents(w.table, port, w.conns[w.reg.byId[gid].hostConn.value].remote, c, gid, ps);
    BroadcastSends(w.table, port, ps, c.userPid, Insert(gid, c.userPid));
    es := events[1..];
    assert events == [Joined(gid, c.userPid)] + es;
  }

  lemma KnownLeave(w: World, port: Port, c: Conn, params: seq<Byte>)
    requires Inv(w) && Known(w)
    ensures Known(LeaveGathering(w, port, c, params))
  {
    hide Members, Pids, Without, Broadcast, Inv, AllTimely;
    var w' := LeaveGathering(w, port, c, params);
    var gid := GidOf(params);
    if gid in w.reg.byId
        && |Without(w.reg.byId[gid].participants, ByPid(c.userPid))| != |w.reg.byId[gid].participants| {
      var rest := Without(w.reg.byId[gid].participants, ByPid(c.userPid));
      var es := Broadcast(w.table, port, rest, c.userPid, Erase(gid, c.userPid));
      LeavePids(w.reg.byId[gid].participants, c.userPid);
      BroadcastSends(w.table, port, rest, c.userPid, Erase(gid, c.userPid));
      assert w'.log == w.log + [Left(gid, c.userPid)] + es;
      KnownThen(w, w', Left(gid, c.userPid), es);
    }
  }

  lemma KnownDestroy(w: World, port: Port, c: Conn, params: seq<Byte>)
    requires Known(w)
    ensures Known(DestroyGathering(w, port, c, params))
  {
    hide Members, Pids, Broadcast;
    var gid := GidOf(params);
    if gid in w.reg.byId && w.reg.byId[gid].ownerPid == c.userPid {
      var ps := w.reg.byId[gid].participants;
      BroadcastSends(w.table, port, ps, c.userPid, Erase(gid, c.userPid));
      KnownPlain(w, DestroyGathering(w, port, c, params),
                 Broadcast(w.table, port, ps, c.userPid, Erase(gid, c.userPid)));
    }
  }

  lemma KnownSeeded(w: World, gid: Gid)
    requires Known(w) && gid in w.reg.byId
    ensures Known(Seeded(w, gid))
  {
    var e := Snapshot(gid, Pids(w.reg.byId[gid].participants));
    TimelySnoc(w.log, e);
    forall g ensures Members(w.log + [e], g) == Members(w.log, g) { MembersSnoc(w.log, e, g); }
  }

  lemma KnownSetClosed(w: World, gid: Gid, value: bool)
    requires Known(w)
    ensures Known(w.(reg := SetClosed(w.reg, gid, value)))
  {
  }

  lemma KnownFire(w: World, port: Port, gid: Gid, reason: Reason)
    requires Known(w) && gid in w.reg.byId
    ensures Known(Fire(w, port, gid, reason))
  {
    hide Members, Pids, StatsPushes, Unarmed;
    var l := w.reg.byId[gid];
    StatsSends(w.table, w.txns, w.db, port, gid, l.participants);
    var es := if l.received == {} then []
              else [Fired(gid, reason, l.received)] + StatsPushes(w.table, w.txns, w.db, port, gid, l.participants);
    assert w.log == w.log + [];
    KnownPlain(w, Fire(w, port, gid, reason), es);
  }

  lemma KnownRecord(w: World, port: Port, gid: Gid, pid: Pid)
    requires Known(w) && gid in w.reg.byId
    ensures Known(Record(w, port, gid, pid))
  {
    hide Members, Pids, Fire;
    var l := w.reg.byId[gid].(received := w.reg.byId[gid].received + {pid});
    var w1 := w.(reg := Put(w.reg, gid, l), log := w.log + [Reported(gid, pid)]);
    KnownPlain(w, w1, [Reported(gid, pid)]);
    if l.expected <= l.received {
      KnownFire(w1, port, gid, AllReported);
    } else if l.timer.None? {
      KnownPlain(w1, Arm(w1, port, gid), [Armed(w1.nextTimer, gid)]);
    }
  }

  lemma KnownAttributed(w: World, port: Port, pid: Pid)
    requires Known(w)
    ensures Known(Attributed(w, port, pid))
  {
    hide Known, Record, Seeded;
    var home := FirstWith(w.reg, w.reg.order, pid);
    if home.Some? {
      KnownSeeded(w, home.value);
      SeededKeeps(w, home.value);
      KnownRecord(Seeded(w, home.value), port, home.value, pid);
    }
  }

  lemma SeededKeeps(w: World, gid: Gid)
    requires gid in w.reg.byId
    ensures gid in Seeded(w, gid).reg.byId
  {
  }

  lemma KnownCounted(w: World, port: Port, pid: Pid, v0: seq<Word>)
    requires Known(w)
    ensures Known(Counted(w, port, pid, v0))
  {
    hide Attributed, Members, Pids;
    var txn := TxnOf(w.txns, pid) + 1;
    var w1 := w.(txns := w.txns[pid := txn]);
    if Loggable(v0) {
      KnownAttributed(w1, port, pid);
      KnownPlain(Attributed(w1, port, pid), Counted(w, port, pid, v0), [Replied(pid, txn)]);
    } else {
      KnownPlain(w, Counted(w, port, pid, v0), [Burned(pid, txn)]);
    }
  }

  lemma KnownReport(w: World, port: Port, c: Conn, params: seq<Byte>, writeOk: bool)
    requires Known(w)
    ensures Known(ReportStats(w, port, c, params, writeOk))
  {
    hide Counted, Members, Pids;
    var counted, w1, es, v0 := ReportParts(w, port, c, params, writeOk);
    if counted {
      KnownPlain(w, w1, es);
      KnownCounted(w1, port, c.userPid, v0);
    }
  }

  lemma KnownCancel(w: World, gid: Gid)
    requires Known(w) && gid in w.reg.byId
    ensures Known(CancelBatch(w, gid))
  {
    hide Members, Pids, Unarmed;
    KnownPlain(w, CancelBatch(w, gid), [Cancelled(gid)]);
  }

  lemma KnownTimeout(w: World, t: TimerId)
    requires Known(w)
    ensures Known(OnTimeout(w, t))
  {
    hide Members, Pids, Fire;
    if t in w.timers && w.timers[t].gid in w.reg.byId {
      KnownFire(w.(timers := w.timers - {t}), w.timers[t].port, w.timers[t].gid, TimedOut);
    }
  }

  lemma KnownClose(w: World, params: seq<Byte>)
    requires Known(w)
    ensures Known(CloseParticipation(w, params))
  {
    hide Known, Seeded;
    var gid := GidOf(params);
    if gid in w.reg.byId {
      KnownSetClosed(w, gid, true);
      KnownSeeded(w.(reg := SetClosed(w.reg, gid, true)), gid);
    }
  }

  lemma KnownHandle(w: World, port: Port, id: ConnId, call: Call)
    requires Inv(w) && Known(w) && id < |w.conns|
    ensures Known(Handle(w, port, id, call))
  {
    hide Inv, Members, Pids, AllTimely, CreateGathering, JoinGathering, LeaveGathering, DestroyGathering,
         CloseParticipation, ReportStats,
         CancelBatch;
    var c := w.conns[id];
    match call
    case RegisterEx(lan, wan) =>
    case Create(raw) => KnownCreate(w, id, c, raw);
    case Join(params) => KnownJoin(w, port, id, c, params);
    case Leave(params) => KnownLeave(w, port, c, params);
    case Destroy(params) => KnownDestroy(w, port, c, params);
    case Close(params) => KnownClose(w, params);
    case Open(params) => KnownSetClosed(w, GidOf(params), false);
    case Report(params, writeOk) => KnownReport(w, port, c, params, writeOk);
    case EndGame(params) =>
      var target := EndGameTarget(w, GidOf(params), c.userPid);
      if target.Some? { KnownCancel(w, target.value); }
  }

  lemma KnownNext(w: World, s: Step)
    requires Inv(w) && Known(w)
    ensures Known(Next(w, s))
  {
    hide Inv, Members, Pids, AllTimely, HandleDisconnect, ReapAll, OnTimeout, Handle;
    match s
    case Syn(port, remote) =>
    case Connect(port, remote, signatureOk, ticket) =>
    case Disconnect(port, remote) => KnownDisconnect(w, port, remote);
    case Reap(port, stale) => KnownReap(w, port, stale);
    case Expire(t) => KnownTimeout(w, t);
    case Request(port, remote, call) =>
      if Established(w, port, remote).Some? {
        KnownHandle(w, port, Established(w, port, remote).value, call);
      }
  }

  lemma {:induction false} KnownRun(w: World, steps: seq<Step>)
    requires Inv(w) && Known(w)
    ensures Known(Run(w, steps))
    decreases steps
  {
    hide Inv, Known, Next;
    if steps != [] {
      InvNext(w, steps[0]);
      KnownNext(w, steps[0]);
      KnownRun(Next(w, steps[0]), steps[1..]);
    }
  }

  // In every run: a lobby's members are who created or joined it and has neither left nor been dropped, and
  // each snapshot in the log listed exactly the members at its time, so that is whom the batch waits for.
  lemma SnapshotsAreMembers(steps: seq<Step>, gid: Gid)
    ensures var w := Run(START, steps);
            && (gid in w.reg.byId ==> Pids(w.reg.byId[gid].participants) == Members(w.log, gid))
            && forall i | 0 <= i < |w.log| && w.log[i].Snapshot? :: w.log[i].pids == Members(w.log[..i], w.log[i].gid)
  {
    hide Run, Members, Pids;
    KnownStart();
    InvStart();
    KnownRun(START, steps);
    var log := Run(START, steps).log;
    forall i | 0 <= i < |log| && log[i].Snapshot? ensures log[i].pids == Members(log[..i], log[i].gid) {
      assert Timely(log[..i], log[i]);
    }
  }

  lemma KnownStart()
    ensures Known(START)
  {
  }

  lemma InvStart()
    ensures Inv(START)
  {
  }
}
