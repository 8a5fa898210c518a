/**
  The end-of-match batch over whole runs: it never stalls, no report is lost, an
  "all reported" push waits for the whole snapshot, and a timer can only fire the
  batch that armed it.
*/
module Batch {
  import opened Options
  import opened Bytes
  import opened Lobbies
  import opened Machine
  import opened Invariants
  import SparkStats
  import Career

  // ---- what the log says about the batches of one lobby ------------------------------

  datatype History = History(
    ended: nat,               // batches fired or cancelled so far
    reports: set<Pid>,        // pids attributed since the last end
    snapshot: set<Pid>,       // the last snapshot since the last end
    reportsSince: set<Pid>,   // pids attributed since that snapshot
    armed: set<TimerId>)      // timers armed since the last end

  const FRESH: History := History(0, {}, {}, {}, {})

  function Extend(h: History, gid: Gid, e: Event): History {
    match e
    case Created(g, _) => if g == gid then FRESH else h
    case Snapshot(g, pids) => if g == gid then h.(snapshot := pids, reportsSince := {}) else h
    case Reported(g, pid) =>
      if g == gid then h.(reports := h.reports + {pid}, reportsSince := h.reportsSince + {pid}) else h
    case Armed(t, g) => if g == gid then h.(armed := h.armed + {t}) else h
    case Fired(g, _, _) => if g == gid then FRESH.(ended := h.ended + 1) else h
    case Cancelled(g) => if g == gid then FRESH.(ended := h.ended + 1) else h
    case _ => h
  }

  function HistoryOf(log: seq<Event>, gid: Gid): History {
    if log == [] then FRESH else Extend(HistoryOf(log[..|log| - 1], gid), gid, log[|log| - 1])
  }

  lemma HistorySnoc(log: seq<Event>, e: Event, gid: Gid)
    ensures HistoryOf(log + [e], gid) == Extend(HistoryOf(log, gid), gid, e)
  {
    assert (log + [e])[..|log|] == log;
  }

  // Events that say nothing about batches.
  predicate Silent(e: Event) {
    e.Joined? || e.Left? || e.Closed? || e.Sent? || e.Saved? || e.Replied? || e.Burned?
  }

  predicate AllSilent(es: seq<Event>) { forall i | 0 <= i < |es| :: Silent(es[i]) }

  lemma SilentConcat(a: seq<Event>, b: seq<Event>)
    requires AllSilent(a) && AllSilent(b)
    ensures AllSilent(a + b)
  {
  }

  lemma {:induction false} HistorySilent(log: seq<Event>, es: seq<Event>, gid: Gid)
    requires AllSilent(es)
    ensures HistoryOf(log + es, gid) == HistoryOf(log, gid)
    ensures Honest(log) ==> Honest(log + es)
  {
    if es == [] {
      assert log + es == log;
    } else {
      var init, last := es[..|es| - 1], es[|es| - 1];
      HistorySilent(log, init, gid);
      HistorySnoc(log + init, last, gid);
      if Honest(log) {
        HonestSnoc(log + init, last);
      }
      assert log + es == (log + init) + [last];
    }
  }

  lemma StatsSilent(table: map<Key, ConnId>, txns: map<Pid, nat>, db: Career.Store, port: Port, gid: Gid,
                    ps: seq<Participant>)
    ensures AllSilent(StatsPushes(table, txns, db, port, gid, ps))
  {
    StatsSends(table, txns, db, port, gid, ps);
  }

  // A batch is pushed with exactly the reports attributed since the last end; "all reported" once the
  // whole snapshot has reported since it was taken, "timed out" only before that.
  predicate FairFire(h: History, e: Event)
    requires e.Fired?
  {
    && e.reported == h.reports != {}
    && (e.reason == AllReported ==> h.snapshot <= h.reportsSince)
    && (e.reason == TimedOut ==> !(h.snapshot <= h.reportsSince))
  }

  // Every push of a batch in the log was fair at its time.
  predicate Honest(log: seq<Event>) {
    forall i | 0 <= i < |log| && log[i].Fired? :: FairFire(HistoryOf(log[..i], log[i].gid), log[i])
  }

  lemma HonestSnoc(log: seq<Event>, e: Event)
    requires Honest(log) && (e.Fired? ==> FairFire(HistoryOf(log, e.gid), e))
    ensures Honest(log + [e])
  {
    forall i | 0 <= i < |log + [e]| && (log + [e])[i].Fired?
      ensures FairFire(HistoryOf((log + [e])[..i], (log + [e])[i].gid), (log + [e])[i])
    {
      if i < |log| {
        assert (log + [e])[..i] == log[..i];
      } else {
        assert (log + [e])[..i] == log;
      }
    }
  }

  // ---- the lobby's batch fields are exactly what the log says -------------------------

  predicate Agrees(l: Lobby, h: History) {
    && l.received == h.reports == h.reportsSince
    && l.expected == h.snapshot
    && (l.timer.None? ==> h.armed == {})
    && (l.timer.Some? ==> h.armed == {l.timer.value})
  }

  ghost predicate Recorded(w: World) {
    Honest(w.log) && forall g | g in w.reg.byId :: Agrees(w.reg.byId[g], HistoryOf(w.log, g))
  }

  predicate SameBatch(l: Lobby, l': Lobby) {
    l'.expected == l.expected && l'.received == l.received && l'.timer == l.timer
  }

  // A step that leaves every batch alone.
  lemma RecordedSilent(w: World, w': World, es: seq<Event>)
    requires Recorded(w) && w'.log == w.log + es && AllSilent(es)
    requires forall g | g in w'.reg.byId :: g in w.reg.byId && SameBatch(w.reg.byId[g], w'.reg.byId[g])
    ensures Recorded(w')
  {
    HistorySilent(w.log, es, 0);
    forall g | g in w'.reg.byId ensures Agrees(w'.reg.byId[g], HistoryOf(w'.log, g)) {
      HistorySilent(w.log, es, g);
    }
  }

  // One lobby changes and one event says how.
  lemma RecordedPut(w: World, w': World, gid: Gid, l: Lobby, e: Event)
    requires Recorded(w) && w'.reg == Put(w.reg, gid, l) && w'.log == w.log + [e]
    requires Agrees(l, Extend(HistoryOf(w.log, gid), gid, e))
    requires forall g, h | g != gid :: Extend(h, g, e) == h
    requires e.Fired? ==> e.gid == gid && FairFire(HistoryOf(w.log, gid), e)
    ensures Recorded(w')
  {
    HonestSnoc(w.log, e);
    forall g | g in w'.reg.byId ensures Agrees(w'.reg.byId[g], HistoryOf(w'.log, g)) {
      HistorySnoc(w.log, e, g);
    }
  }

  lemma RecordedDisconnect(w: World, port: Port, remote: Remote)
    requires Inv(w) && Recorded(w)
    ensures Recorded(HandleDisconnect(w, port, remote))
  {
    CloseConsistent(w.reg, remote);
    RecordedSilent(w, HandleDisconnect(w, port, remote), [Closed(remote, DroppedBy(w.reg, remote))]);
  }

  lemma {:induction false} RecordedReap(w: World, port: Port, stale: seq<Remote>)
    requires Inv(w) && Recorded(w)
    ensures Recorded(ReapAll(w, port, stale))
    decreases stale
  {
    if stale != [] {
      InvDisconnect(w, port, stale[0]);
      RecordedDisconnect(w, port, stale[0]);
      RecordedReap(HandleDisconnect(w, port, stale[0]), port, stale[1..]);
    }
  }

  lemma RecordedCreate(w: World, id: ConnId, c: Conn, raw: seq<Byte>)
    requires Recorded(w)
    ensures Recorded(CreateGathering(w, id, c, raw))
  {
    var w' := CreateGathering(w, id, c, raw);
    HonestSnoc(w.log, Created(w.reg.nextId, c.userPid));
    forall g | g in w'.reg.byId ensures Agrees(w'.reg.byId[g], HistoryOf(w'.log, g)) {
      HistorySnoc(w.log, Created(w.reg.nextId, c.userPid), g);
    }
  }

  // Events about who is in which lobby, as opposed to matches and stats.
  predicate AboutMembers(e: Event) {
    e.Created? || e.Joined? || e.Left? || e.Closed? || (e.Sent? && !e.push.Stats?)
  }

  predicate AllAboutMembers(es: seq<Event>) { forall i | 0 <= i < |es| :: AboutMembers(es[i]) }

  lemma JoinSilent(table: map<Key, ConnId>, port: Port, hostRemote: Remote, c: Conn, gid: Gid, ps: seq<Participant>)
    ensures AllSilent(JoinEvents(table, port, hostRemote, c, gid, ps))
    ensures AllAboutMembers(JoinEvents(table, port, hostRemote, c, gid, ps))
  {
    BroadcastSends(table, port, ps, c.userPid, Insert(gid, c.userPid));
    SilentConcat([Joined(gid, c.userPid)], Probes(port, hostRemote, c.urls));
    SilentConcat([Joined(gid, c.userPid)] + Probes(port, hostRemote, c.urls),
                 Broadcast(table, port, ps, c.userPid, Insert(gid, c.userPid)));
  }

  lemma LeaveSilent(table: map<Key, ConnId>, port: Port, gid: Gid, pid: Pid, rest: seq<Participant>)
    ensures AllSilent(LeaveEvents(table, port, gid, pid, rest))
    ensures AllAboutMembers(LeaveEvents(table, port, gid, pid, rest))
  {
    BroadcastSends(table, port, rest, pid, Erase(gid, pid));
  }

  // A membership request leaves the surviving batches alone and logs nothing about batches.
  lemma MembershipSilent(w: World, port: Port, id: ConnId, c: Conn, call: Call, w': World) returns (es: seq<Event>)
    requires match call
             case Join(params) => w' == JoinGathering(w, port, id, c, params)
             case Leave(params) => w' == LeaveGathering(w, port, c, params)
             case Destroy(params) => w' == DestroyGathering(w, port, c, params)
             case _ => false
    ensures w'.log == w.log + es && AllSilent(es) && AllAboutMembers(es)
    ensures forall g | g in w'.reg.byId :: g in w.reg.byId && SameBatch(w.reg.byId[g], w'.reg.byId[g])
  {
    es := [];
    assert w.log == w.log + es;
    if w' != w {
      match call
      case Join(params) =>
        var gid := GidOf(params);
        var host := w.conns[w.reg.byId[gid].hostConn.value].remote;
        es := JoinEvents(w.table, port, host, c, gid, w'.reg.byId[gid].participants);
        JoinSilent(w.table, port, host, c, gid, w'.reg.byId[gid].participants);
      case Leave(params) =>
        var rest := Without(w.reg.byId[GidOf(params)].participants, ByPid(c.userPid));
        es := LeaveEvents(w.table, port, GidOf(params), c.userPid, rest);
        LeaveSilent(w.table, port, GidOf(params), c.userPid, rest);
      case Destroy(params) =>
        var ps := w.reg.byId[GidOf(params)].participants;
        es := Broadcast(w.table, port, ps, c.userPid, Erase(GidOf(params), c.userPid));
        BroadcastSends(w.table, port, ps, c.userPid, Erase(GidOf(params), c.userPid));
    }
  }

  lemma RecordedMembership(w: World, port: Port, id: ConnId, call: Call)
    requires Recorded(w) && id < |w.conns| && (call.Join? || call.Leave? || call.Destroy?)
    ensures Recorded(Handle(w, port, id, call))
  {
    var es := MembershipSilent(w, port, id, w.conns[id], call, Handle(w, port, id, call));
    RecordedSilent(w, Handle(w, port, id, call), es);
  }

  lemma RecordedSetClosed(w: World, gid: Gid, value: bool)
    requires Recorded(w)
    ensures Recorded(w.(reg := SetClosed(w.reg, gid, value)))
  {
    assert w.log == w.log + [];
    RecordedSilent(w, w.(reg := SetClosed(w.reg, gid, value)), []);
  }

  lemma RecordedSeeded(w: World, gid: Gid)
    requires Inv(w) && Recorded(w) && gid in w.reg.byId
    ensures Recorded(Seeded(w, gid))
  {
    var l := w.reg.byId[gid];
    if l.expected == {} {
      RecordedPut(w, Seeded(w, gid), gid, l.(expected := Pids(l.participants), received := {}),
                  Snapshot(gid, Pids(l.participants)));
    }
  }

  lemma RecordedFire(w: World, port: Port, gid: Gid, reason: Reason)
    requires Recorded(w) && gid in w.reg.byId && w.reg.byId[gid].received != {}
    requires reason == AllReported <==> w.reg.byId[gid].expected <= w.reg.byId[gid].received
    ensures Recorded(Fire(w, port, gid, reason))
  {
    var l := w.reg.byId[gid];
    var w1 := w.(reg := Put(w.reg, gid, ClearBatch(l)), log := w.log + [Fired(gid, reason, l.received)]);
    RecordedPut(w, w1, gid, ClearBatch(l), Fired(gid, reason, l.received));
    var es := StatsPushes(w.table, w.txns, w.db, port, gid, l.participants);
    StatsSilent(w.table, w.txns, w.db, port, gid, l.participants);
    RecordedSilent(w1, Fire(w, port, gid, reason), es);
  }

  lemma RecordedRecord(w: World, port: Port, gid: Gid, pid: Pid)
    requires Recorded(w) && gid in w.reg.byId
    ensures Recorded(Record(w, port, gid, pid))
  {
    var l := w.reg.byId[gid].(received := w.reg.byId[gid].received + {pid});
    var w' := w.(reg := Put(w.reg, gid, l), log := w.log + [Reported(gid, pid)]);
    RecordedPut(w, w', gid, l, Reported(gid, pid));
    if l.expected <= l.received {
      RecordedFire(w', port, gid, AllReported);
    } else if l.timer.None? {
      RecordedPut(w', Arm(w', port, gid), gid, l.(timer := Some(w'.nextTimer)), Armed(w'.nextTimer, gid));
    }
  }

  // A report either changes nothing or is a stored upload followed by its counting.
  lemma ReportParts(w: World, port: Port, c: Conn, params: seq<Byte>, writeOk: bool)
    returns (counted: bool, w1: World, es: seq<Event>, v0: seq<Word>)
    ensures AllSilent(es) && (es == [] || es == [Saved(c.userPid, v0)]) && w1 == w.(db := w1.db, log := w.log + es)
    ensures ReportStats(w, port, c, params, writeOk) == if counted then Counted(w1, port, c.userPid, v0) else w
  {
    counted, w1, es, v0 := false, w, [], [];
    assert w.log == w.log + [];
    if params != [] {
      var found := SparkStats.SenderEntry(params, c.userPid);
      v0 := if found.Some? then found.value.vec0 else [];
      var v1 := if found.Some? then found.value.vec1 else [];
      var stored := Stored(w, c.userPid, v0, v1, writeOk);
      if stored.Some? {
        counted, w1 := true, stored.value;
        es := if w1.log == w.log then [] else [Saved(c.userPid, v0)];
      }
    }
  }

  lemma RecordedReport(w: World, port: Port, c: Conn, params: seq<Byte>, writeOk: bool)
    requires Inv(w) && Recorded(w)
    ensures Recorded(ReportStats(w, port, c, params, writeOk))
  {
    var counted, w1, es, v0 := ReportParts(w, port, c, params, writeOk);
    RecordedSilent(w, w1, es);
    RecordedCounted(w1, port, c.userPid, v0);
  }

  lemma RecordedCounted(w: World, port: Port, pid: Pid, v0: seq<Word>)
    requires Inv(w) && Recorded(w)
    ensures Recorded(Counted(w, port, pid, v0))
  {
    var txn := TxnOf(w.txns, pid) + 1;
    var w1 := w.(txns := w.txns[pid := txn]);
    if !Loggable(v0) {
      RecordedSilent(w, Counted(w, port, pid, v0), [Burned(pid, txn)]);
    } else {
      InvSameRegistry(w, w1);
      assert Recorded(w1);
      RecordedAttributed(w1, port, pid);
      RecordedSilent(Attributed(w1, port, pid), Counted(w, port, pid, v0), [Replied(pid, txn)]);
    }
  }

  lemma RecordedAttributed(w: World, port: Port, pid: Pid)
    requires Inv(w) && Recorded(w)
    ensures Recorded(Attributed(w, port, pid))
  {
    var home := FirstWith(w.reg, w.reg.order, pid);
    if home.Some? {
      RecordedAttribute(w, port, home.value, pid);
    }
  }

  lemma RecordedAttribute(w: World, port: Port, gid: Gid, pid: Pid)
    requires Inv(w) && Recorded(w) && gid in w.reg.byId
    ensures Recorded(Attribute(w, port, gid, pid))
  {
    RecordedSeeded(w, gid);
    RecordedRecord(Seeded(w, gid), port, gid, pid);
  }

  lemma RecordedCancel(w: World, gid: Gid)
    requires Recorded(w) && gid in w.reg.byId
    ensures Recorded(CancelBatch(w, gid))
  {
    RecordedPut(w, CancelBatch(w, gid), gid, ClearBatch(w.reg.byId[gid]), Cancelled(gid));
  }

  lemma RecordedTimeout(w: World, t: TimerId)
    requires Inv(w) && Recorded(w)
    ensures Recorded(OnTimeout(w, t))
  {
    if t in w.timers && w.timers[t].gid in w.reg.byId {
      RecordedFire(w.(timers := w.timers - {t}), w.timers[t].port, w.timers[t].gid, TimedOut);
    }
  }

  lemma RecordedHandle(w: World, port: Port, id: ConnId, call: Call)
    requires Inv(w) && Recorded(w) && id < |w.conns|
    ensures Recorded(Handle(w, port, id, call))
  {
    hide HistoryOf, Agrees, Honest, CreateGathering, JoinGathering, LeaveGathering, DestroyGathering, ReportStats,
         CancelBatch, Seeded, TableOk, HostsOk, TimersOk, LobbiesOk, Consistent;
    var c := w.conns[id];
    match call
    case RegisterEx(lan, wan) =>
    case Create(raw) => RecordedCreate(w, id, c, raw);
    case Join(params) => RecordedMembership(w, port, id, call);
    case Leave(params) => RecordedMembership(w, port, id, call);
    case Destroy(params) => RecordedMembership(w, port, id, call);
    case Close(params) =>
      var w1 := w.(reg := SetClosed(w.reg, GidOf(params), true));
      RecordedSetClosed(w, GidOf(params), true);
      InvSetClosed(w, GidOf(params), true);
      if GidOf(params) in w.reg.byId {
        RecordedSeeded(w1, GidOf(params));
      }
    case Open(params) => RecordedSetClosed(w, GidOf(params), false);
    case Report(params, writeOk) => RecordedReport(w, port, c, params, writeOk);
    case EndGame(params) =>
      var target := EndGameTarget(w, GidOf(params), c.userPid);
      if target.Some? {
        RecordedCancel(w, target.value);
      }
  }

  lemma RecordedNext(w: World, s: Step)
    requires Inv(w) && Recorded(w)
    ensures Recorded(Next(w, s))
  {
    match s
    case Syn(port, remote) =>
    case Connect(port, remote, signatureOk, ticket) =>
    case Disconnect(port, remote) => RecordedDisconnect(w, port, remote);
    case Reap(port, stale) => RecordedReap(w, port, stale);
    case Request(port, remote, call) =>
      if Established(w, port, remote).Some? {
        RecordedHandle(w, port, Established(w, port, remote).value, call);
      }
    case Expire(t) => RecordedTimeout(w, t);
  }

  lemma {:induction false} RecordedRun(w: World, steps: seq<Step>)
    requires Inv(w) && Recorded(w)
    ensures Inv(Run(w, steps)) && Recorded(Run(w, steps))
    decreases steps
  {
    if steps != [] {
      InvNext(w, steps[0]);
      RecordedNext(w, steps[0]);
      RecordedRun(Next(w, steps[0]), steps[1..]);
    }
  }

  // ---- the theorems ---------------------------------------------------------------------

  // In every reachable state a lobby has a running timer exactly while it has reports, that timer is
  // pending, and somebody it expects has not reported: a complete batch never lingers.
  lemma NeverStalls(steps: seq<Step>, gid: Gid)
    requires gid in Run(START, steps).reg.byId
    ensures var w := Run(START, steps); var l := w.reg.byId[gid];
            && (l.received != {} <==> l.timer.Some?)
            && (l.received != {} ==> l.timer.value in w.timers && exists p :: p in l.expected && p !in l.received)
  {
    InvRun(START, steps);
  }

  // Nothing is lost and nothing invented: what a lobby holds is what was attributed to it since its
  // last push or cancellation, what it expects is its snapshot, and every push ever made was fair.
  lemma ReportsConserved(steps: seq<Step>, gid: Gid)
    requires gid in Run(START, steps).reg.byId
    ensures var w := Run(START, steps); var l := w.reg.byId[gid]; var h := HistoryOf(w.log, gid);
            l.received == h.reports == h.reportsSince && l.expected == h.snapshot
    ensures Honest(Run(START, steps).log)
  {
    RecordedRun(START, steps);
  }

  // An expiring timer fires the very batch that armed it, with that batch's reports, or does nothing
  // because its lobby is gone.
  lemma TimersNeverCross(steps: seq<Step>, t: TimerId)
    requires t in Run(START, steps).timers
    ensures var w := Run(START, steps); var w' := Next(w, Expire(t)); var gid := w.timers[t].gid;
            var port := w.timers[t].port;
            if gid !in w.reg.byId then w' == w.(timers := w.timers - {t}) && gid < w.reg.nextId
            else
              var l, h := w.reg.byId[gid], HistoryOf(w.log, gid);
              && h.armed == {t} && l.timer == Some(t)
              && w'.reg == Put(w.reg, gid, ClearBatch(l)) && w'.timers == w.timers - {t}
              && w'.log == w.log + [Fired(gid, TimedOut, h.reports)]
                           + StatsPushes(w.table, w.txns, w.db, port, gid, l.participants)
  {
    RecordedRun(START, steps);
    var w := Run(START, steps);
    assert w.timers - {t} - {t} == w.timers - {t};
  }

  // ---- an open batch ends, and by its own timer at the latest -----------------------------

  // The batch is still the same one, with the same timer and no report less.
  predicate StillOpen(w: World, w': World, gid: Gid)
    requires gid in w.reg.byId && gid in w'.reg.byId
  {
    var l, l' := w.reg.byId[gid], w'.reg.byId[gid];
    && l'.timer == l.timer && l'.expected == l.expected && l.received <= l'.received
    && HistoryOf(w'.log, gid).ended == HistoryOf(w.log, gid).ended
  }

  predicate JustEnded(w: World, w': World, gid: Gid)
    requires gid in w.reg.byId && gid in w'.reg.byId
  {
    && w'.reg.byId[gid].received == {} && w'.reg.byId[gid].expected == {} && w'.reg.byId[gid].timer.None?
    && HistoryOf(w'.log, gid).ended == HistoryOf(w.log, gid).ended + 1
  }

  lemma OpenSilent(w: World, w': World, es: seq<Event>, gid: Gid)
    requires w'.log == w.log + es && AllSilent(es)
    requires gid in w.reg.byId && gid in w'.reg.byId && SameBatch(w.reg.byId[gid], w'.reg.byId[gid])
    ensures StillOpen(w, w', gid)
  {
    HistorySilent(w.log, es, gid);
  }

  lemma CloseKeepsBatch(r: Registry, remote: Remote, gid: Gid)
    requires Consistent(r)
    ensures gid in CloseRemote(r, remote).byId
        ==> gid in r.byId && SameBatch(r.byId[gid], CloseRemote(r, remote).byId[gid])
  {
    CloseConsistent(r, remote);
  }

  lemma OpenDisconnect(w: World, port: Port, remote: Remote, gid: Gid)
    requires Consistent(w.reg)
    ensures gid in HandleDisconnect(w, port, remote).reg.byId ==>
              gid in w.reg.byId && StillOpen(w, HandleDisconnect(w, port, remote), gid)
  {
    hide CloseRemote;
    if gid in HandleDisconnect(w, port, remote).reg.byId {
      CloseKeepsBatch(w.reg, remote, gid);
      OpenSilent(w, HandleDisconnect(w, port, remote), [Closed(remote, DroppedBy(w.reg, remote))], gid);
    }
  }

  lemma {:induction false} OpenReap(w: World, port: Port, stale: seq<Remote>, gid: Gid)
    requires Inv(w)
    ensures gid in ReapAll(w, port, stale).reg.byId ==> gid in w.reg.byId && StillOpen(w, ReapAll(w, port, stale), gid)
    decreases stale
  {
    hide TableOk, HostsOk, TimersOk, LobbiesOk, HandleDisconnect;
    if stale != [] {
      var w1 := HandleDisconnect(w, port, stale[0]);
      InvDisconnect(w, port, stale[0]);
      OpenReap(w1, port, stale[1..], gid);
      OpenDisconnect(w, port, stale[0], gid);
    }
  }

  predicate OpenOrEnded(w: World, w': World, gid: Gid) {
    gid in w.reg.byId && gid in w'.reg.byId && (StillOpen(w, w', gid) || JustEnded(w, w', gid))
  }

  // Steps that leave registry and batch events alone do not matter, before or after.
  lemma OpenThenSilent(w: World, w1: World, w2: World, es: seq<Event>, gid: Gid)
    requires OpenOrEnded(w, w1, gid) && w2.reg == w1.reg && w2.log == w1.log + es && AllSilent(es)
    ensures OpenOrEnded(w, w2, gid)
  {
    HistorySilent(w1.log, es, gid);
  }

  lemma SilentThenOpen(w: World, w1: World, w2: World, es: seq<Event>, gid: Gid)
    requires w1.reg == w.reg && w1.log == w.log + es && AllSilent(es) && OpenOrEnded(w1, w2, gid)
    ensures OpenOrEnded(w, w2, gid)
  {
    HistorySilent(w.log, es, gid);
  }

  lemma OpenReport(w: World, port: Port, c: Conn, params: seq<Byte>, writeOk: bool, gid: Gid)
    requires Inv(w) && gid in w.reg.byId && w.reg.byId[gid].received != {}
    ensures OpenOrEnded(w, ReportStats(w, port, c, params, writeOk), gid)
  {
    var counted, w1, es, v0 := ReportParts(w, port, c, params, writeOk);
    OpenCounted(w1, port, c.userPid, v0, gid);
    SilentThenOpen(w, w1, Counted(w1, port, c.userPid, v0), es, gid);
  }

  lemma OpenCounted(w: World, port: Port, pid: Pid, v0: seq<Word>, gid: Gid)
    requires LobbiesOk(w.reg) && gid in w.reg.byId && w.reg.byId[gid].received != {}
    ensures OpenOrEnded(w, Counted(w, port, pid, v0), gid)
  {
    var txn := TxnOf(w.txns, pid) + 1;
    var w1 := w.(txns := w.txns[pid := txn]);
    assert w1.log == w.log + [];
    if !Loggable(v0) {
      OpenThenSilent(w, w1, Counted(w, port, pid, v0), [Burned(pid, txn)], gid);
    } else {
      OpenAttributed(w1, port, pid, gid);
      OpenThenSilent(w1, Attributed(w1, port, pid), Counted(w, port, pid, v0), [Replied(pid, txn)], gid);
      SilentThenOpen(w, w1, Counted(w, port, pid, v0), [], gid);
    }
  }

  lemma OpenAttributed(w: World, port: Port, pid: Pid, gid: Gid)
    requires LobbiesOk(w.reg) && gid in w.reg.byId && w.reg.byId[gid].received != {}
    ensures OpenOrEnded(w, Attributed(w, port, pid), gid)
  {
    var home := FirstWith(w.reg, w.reg.order, pid);
    if home.Some? {
      OpenAttribute(w, port, home.value, pid, gid);
    }
  }

  lemma OpenAttribute(w: World, port: Port, home: Gid, pid: Pid, gid: Gid)
    requires LobbiesOk(w.reg) && home in w.reg.byId && gid in w.reg.byId && w.reg.byId[gid].received != {}
    ensures OpenOrEnded(w, Attribute(w, port, home, pid), gid)
  {
    hide Record, Seeded, HistoryOf, BatchOk, RosterOk;
    OpenSeeded(w, home, gid);
    OpenRecord(Seeded(w, home), port, home, pid, gid);
  }

  lemma OpenSeeded(w: World, home: Gid, gid: Gid)
    requires home in w.reg.byId && gid in w.reg.byId && LobbyOk(w.reg.byId[gid]) && w.reg.byId[gid].received != {}
    ensures Seeded(w, home).reg.byId.Keys == w.reg.byId.Keys
    ensures Seeded(w, home).reg.byId[gid] == w.reg.byId[gid]
    ensures HistoryOf(Seeded(w, home).log, gid).ended == HistoryOf(w.log, gid).ended
  {
    HistorySnoc(w.log, Snapshot(home, Pids(w.reg.byId[home].participants)), gid);
  }

  lemma OpenFired(w: World, w1: World, home: Gid, e: Event, gid: Gid)
    requires home in w.reg.byId && gid in w.reg.byId && e.Fired? && e.gid == home
    requires w1.reg == Put(w.reg, home, ClearBatch(w.reg.byId[home])) && w1.log == w.log + [e]
    ensures OpenOrEnded(w, w1, gid)
  {
    HistorySnoc(w.log, e, gid);
  }

  lemma OpenFire(w: World, port: Port, home: Gid, reason: Reason, gid: Gid)
    requires home in w.reg.byId && gid in w.reg.byId && w.reg.byId[home].received != {}
    ensures OpenOrEnded(w, Fire(w, port, home, reason), gid)
  {
    var l := w.reg.byId[home];
    var fired := Fired(home, reason, l.received);
    var w1 := w.(reg := Put(w.reg, home, ClearBatch(l)), log := w.log + [fired]);
    OpenFired(w, w1, home, fired, gid);
    StatsSilent(w.table, w.txns, w.db, port, home, l.participants);
    OpenThenSilent(w, w1, Fire(w, port, home, reason), StatsPushes(w.table, w.txns, w.db, port, home, l.participants),
                   gid);
  }

  lemma OpenRecord(w: World, port: Port, home: Gid, pid: Pid, gid: Gid)
    requires home in w.reg.byId && gid in w.reg.byId && LobbyOk(w.reg.byId[gid]) && w.reg.byId[gid].received != {}
    ensures OpenOrEnded(w, Record(w, port, home, pid), gid)
  {
    hide HistoryOf, Fire;
    var l := w.reg.byId[home].(received := w.reg.byId[home].received + {pid});
    var w1 := w.(reg := Put(w.reg, home, l), log := w.log + [Reported(home, pid)]);
    assert StillOpen(w, w1, gid) by { HistorySnoc(w.log, Reported(home, pid), gid); }
    if l.expected <= l.received {
      OpenFire(w1, port, home, AllReported, gid);
      OpenCompose(w, w1, Fire(w1, port, home, AllReported), gid);
    } else if l.timer.None? {
      assert StillOpen(w1, Arm(w1, port, home), gid) by { HistorySnoc(w1.log, Armed(w1.nextTimer, home), gid); }
      OpenCompose(w, w1, Arm(w1, port, home), gid);
    }
  }

  lemma OpenCompose(w: World, w1: World, w2: World, gid: Gid)
    requires gid in w.reg.byId && gid in w1.reg.byId && StillOpen(w, w1, gid) && OpenOrEnded(w1, w2, gid)
    ensures OpenOrEnded(w, w2, gid)
  {
  }

  // One step of anything: an open batch is still open with its timer running, or it has just ended by a push
  // or a cancellation, or its lobby is gone.
  lemma OpenBatchProgress(w: World, s: Step, gid: Gid)
    requires Inv(w) && Recorded(w) && gid in w.reg.byId && w.reg.byId[gid].received != {}
    ensures gid in Next(w, s).reg.byId ==> StillOpen(w, Next(w, s), gid) || JustEnded(w, Next(w, s), gid)
  {
    hide Consistent, TableOk, HostsOk, TimersOk, LobbiesOk, Recorded, Handle, ReapAll, OnTimeout, HandleDisconnect;
    match s
    case Disconnect(port, remote) =>
      if gid in Next(w, s).reg.byId { OpenDisconnect(w, port, remote, gid); }
    case Reap(port, stale) =>
      if gid in Next(w, s).reg.byId { OpenReap(w, port, stale, gid); }
    case Expire(t) => OpenTimeout(w, t, gid);
    case Request(port, remote, call) =>
      if Established(w, port, remote).Some? {
        OpenHandle(w, port, Established(w, port, remote).value, call, gid);
      }
    case _ =>
  }

  lemma OpenTimeout(w: World, t: TimerId, gid: Gid)
    requires Inv(w) && gid in w.reg.byId
    ensures OpenOrEnded(w, OnTimeout(w, t), gid)
  {
    if t in w.timers && w.timers[t].gid in w.reg.byId {
      var w1 := w.(timers := w.timers - {t});
      OpenFire(w1, w.timers[t].port, w.timers[t].gid, TimedOut, gid);
      assert w1.log == w.log + [];
      SilentThenOpen(w, w1, OnTimeout(w, t), [], gid);
    }
  }

  lemma OpenHandle(w: World, port: Port, id: ConnId, call: Call, gid: Gid)
    requires Inv(w) && Recorded(w) && gid in w.reg.byId && w.reg.byId[gid].received != {} && id < |w.conns|
    ensures gid in Handle(w, port, id, call).reg.byId ==> OpenOrEnded(w, Handle(w, port, id, call), gid)
  {
    hide Consistent, TableOk, HostsOk, TimersOk, LobbiesOk, Recorded, CreateGathering, JoinGathering, LeaveGathering,
         DestroyGathering, CloseParticipation, ReportStats, HandleEndGame;
    var c := w.conns[id];
    match call
    case Create(raw) => OpenCreate(w, id, c, raw, gid);
    case Join(params) => OpenMembership(w, port, id, call, gid);
    case Leave(params) => OpenMembership(w, port, id, call, gid);
    case Destroy(params) => OpenMembership(w, port, id, call, gid);
    case Close(params) => OpenClose(w, params, gid);
    case Report(params, writeOk) => OpenReport(w, port, c, params, writeOk, gid);
    case EndGame(params) => OpenEndGame(w, c, params, gid);
    case _ =>
  }

  lemma OpenCreate(w: World, id: ConnId, c: Conn, raw: seq<Byte>, gid: Gid)
    requires Consistent(w.reg) && gid in w.reg.byId
    ensures gid in CreateGathering(w, id, c, raw).reg.byId ==> OpenOrEnded(w, CreateGathering(w, id, c, raw), gid)
  {
    HistorySnoc(w.log, Created(w.reg.nextId, c.userPid), gid);
  }

  lemma OpenClose(w: World, params: seq<Byte>, gid: Gid)
    requires LobbiesOk(w.reg) && gid in w.reg.byId && w.reg.byId[gid].received != {}
    ensures OpenOrEnded(w, CloseParticipation(w, params), gid)
  {
    if GidOf(params) in w.reg.byId {
      OpenSeeded(w.(reg := SetClosed(w.reg, GidOf(params), true)), GidOf(params), gid);
    }
  }

  lemma OpenEndGame(w: World, c: Conn, params: seq<Byte>, gid: Gid)
    requires gid in w.reg.byId
    ensures OpenOrEnded(w, HandleEndGame(w, c, params), gid)
  {
    var target := EndGameTarget(w, GidOf(params), c.userPid);
    if target.Some? {
      HistorySnoc(w.log, Cancelled(target.value), gid);
    }
  }

  lemma OpenMembership(w: World, port: Port, id: ConnId, call: Call, gid: Gid)
    requires id < |w.conns| && (call.Join? || call.Leave? || call.Destroy?)
    requires gid in w.reg.byId
    ensures gid in Handle(w, port, id, call).reg.byId ==> StillOpen(w, Handle(w, port, id, call), gid)
  {
    var es := MembershipSilent(w, port, id, w.conns[id], call, Handle(w, port, id, call));
    if gid in Handle(w, port, id, call).reg.byId {
      OpenSilent(w, Handle(w, port, id, call), es, gid);
    }
  }
}
