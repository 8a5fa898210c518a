/**
  From one match to the next: where a report lands, and that an ended match
  leaves nothing behind for the lobby's next one.
*/
module Rematch {
  import opened Options
  import opened Bytes
  import opened Lobbies
  import opened Machine
  import opened Invariants
  import opened Batch
  import opened Party
  import opened Fires
  import opened Replies
  import opened Requests

  // ---- where a report lands ---------------------------------------------------------------------

  // Whom the lobby waits for once a report arrives: its snapshot, or whoever is in it if there is none.
  function Awaited(l: Lobby): set<Pid> { if l.expected == {} then Pids(l.participants) else l.expected }

  function Heard(l: Lobby, pid: Pid): set<Pid> { (if l.expected == {} then {} else l.received) + {pid} }

  // The lobby a report came to: over if nobody is missing any more, else one report further, with a timer.
  ghost predicate Advances(w: World, w': World, port: Port, g: Gid, pid: Pid)
    requires g in w.reg.byId && g in w'.reg.byId
  {
    var l, l' := w.reg.byId[g], w'.reg.byId[g];
    if Awaited(l) <= Heard(l, pid) then
      l' == l.(expected := {}, received := {}, timer := None)
    else
      && l' == l.(expected := Awaited(l), received := Heard(l, pid), timer := l'.timer)
      && l'.timer == (if l.timer.Some? then l.timer else Some(w.nextTimer))
      && (l.timer.None? ==> w.nextTimer in w'.timers && w'.timers[w.nextTimer] == Timer(g, port))
  }

  lemma RecordOutcome(w: World, port: Port, g: Gid, pid: Pid)
    requires g in w.reg.byId
    ensures var l, w' := w.reg.byId[g], Record(w, port, g, pid); var heard := l.received + {pid};
            if l.expected <= heard then
              w'.reg == Put(w.reg, g, l.(expected := {}, received := {}, timer := None))
            else if l.timer.Some? then
              w'.reg == Put(w.reg, g, l.(received := heard))
            else
              && w'.reg == Put(w.reg, g, l.(received := heard, timer := Some(w.nextTimer)))
              && w'.timers == w.timers[w.nextTimer := Timer(g, port)]
  {
    hide StatsPushes, Unarmed;
    var l := w.reg.byId[g].(received := w.reg.byId[g].received + {pid});
    assert pid in l.received;
    PutPut(w.reg, g, l, ClearBatch(l));
    PutPut(w.reg, g, l, l.(timer := Some(w.nextTimer)));
  }

  lemma RecordAdvances(w: World, port: Port, g: Gid, pid: Pid)
    requires Inv(w) && g in w.reg.byId && pid in Pids(w.reg.byId[g].participants)
    ensures OnlyLobby(w, Attribute(w, port, g, pid), g) && Advances(w, Attribute(w, port, g, pid), port, g, pid)
  {
    hide Record, TimersOk, TableOk, HostsOk, RosterOk, Pids, Ascending, Consistent;
    var l := w.reg.byId[g];
    assert LobbyOk(l);
    var seeded := l.(expected := Awaited(l), received := if l.expected == {} then {} else l.received);
    assert Seeded(w, g).reg == Put(w.reg, g, seeded);
    RecordOutcome(Seeded(w, g), port, g, pid);
    PutPut(w.reg, g, seeded, Record(Seeded(w, g), port, g, pid).reg.byId[g]);
  }

  // A report of the caller counts for the oldest lobby that has it, and for no other, if the upload gets past the
  // log line; otherwise no lobby notices.
  ghost predicate Lands(w: World, w': World, port: Port, pid: Pid, params: seq<Byte>) {
    && w'.table == w.table && w'.conns == w.conns
    && w'.txns == (if TakesId(params, pid) then w.txns[pid := (if pid in w.txns then w.txns[pid] else 0) + 1]
                   else w.txns)
    && (forall g | Answerable(params, pid) && OldestWith(w.reg, pid, g) ::
          OnlyLobby(w, w', g) && Advances(w, w', port, g, pid))
    && (!Answerable(params, pid) || (forall g :: !OldestWith(w.reg, pid, g)) ==>
          w'.reg == w.reg && w'.timers == w.timers)
  }

  lemma ReportLands(w: World, port: Port, remote: Remote, id: ConnId, params: seq<Byte>, writeOk: bool)
    requires Inv(w) && Calls(w, port, remote, id)
    ensures Lands(w, Next(w, Request(port, remote, Report(params, writeOk))), port, w.conns[id].userPid, params)
  {
    hide Lands, Inv, ReportStats;
    StatsLand(w, port, w.conns[id], params, writeOk);
  }

  lemma StatsLand(w: World, port: Port, c: Conn, params: seq<Byte>, writeOk: bool)
    requires Inv(w)
    ensures Lands(w, ReportStats(w, port, c, params, writeOk), port, c.userPid, params)
  {
    hide Loggable, Attributed, Inv, OldestWith, FirstWith, Awaited, Heard, StoredBy, ReportStats, TakesId, SentSlots;
    var pid := c.userPid;
    ReportStores(w, port, c, params, writeOk);
    if TakesId(params, pid) {
      var w1 := StoredBy(w, params, pid, writeOk);
      LobbyNotices(w, w1.(txns := w1.txns[pid := TxnOf(w1.txns, pid) + 1]), port, pid);
    }
  }

  // The state once the upload is stored.
  function StoredBy(w: World, params: seq<Byte>, pid: Pid, writeOk: bool): World
    requires TakesId(params, pid)
  {
    var found := SparkStats.SenderEntry(params, pid);
    Stored(w, pid, SentSlots(params, pid), if found.Some? then found.value.vec1 else [], writeOk).value
  }

  lemma ReportStores(w: World, port: Port, c: Conn, params: seq<Byte>, writeOk: bool)
    ensures ReportStats(w, port, c, params, writeOk)
         == if TakesId(params, c.userPid)
            then Counted(StoredBy(w, params, c.userPid, writeOk), port, c.userPid, SentSlots(params, c.userPid))
            else w
    ensures TakesId(params, c.userPid) ==>
              var w1 := StoredBy(w, params, c.userPid, writeOk); w1 == w.(db := w1.db, log := w1.log)
  {
    hide SparkStats.SenderEntry, Career.ComputeRows, Career.Storable, Career.PersistMatch, Counted;
  }

  // Attribution reads the registry and the timers only.
  lemma LobbyNotices(w: World, w1: World, port: Port, pid: Pid)
    requires Inv(w) && w1 == w.(txns := w1.txns, db := w1.db, log := w1.log)
    ensures var w2 := Attributed(w1, port, pid);
            && w2.table == w.table && w2.conns == w.conns && w2.txns == w1.txns
            && (forall g | OldestWith(w.reg, pid, g) :: OnlyLobby(w, w2, g) && Advances(w, w2, port, g, pid))
            && ((forall g :: !OldestWith(w.reg, pid, g)) ==> w2.reg == w.reg && w2.timers == w.timers)
  {
    hide Attribute, Advances, OldestWith, FirstWith, Pids, TimersOk, TableOk, HostsOk, LobbiesOk;
    forall g: Gid ensures FirstWith(w.reg, w.reg.order, pid) == Some(g) <==> OldestWith(w.reg, pid, g) {
      OldestIsFirst(w.reg, pid, g);
    }
    var home := FirstWith(w.reg, w.reg.order, pid);
    if home.Some? {
      AttributeOnlyBatch(w1, port, home.value, pid);
      InvSameRegistry(w, w1);
      RecordAdvances(w1, port, home.value, pid);
      assert Advances(w, Attributed(w1, port, pid), port, home.value, pid) by {
        AdvancesSame(w, w1, port, home.value, pid);
      }
    }
  }

  lemma AdvancesSame(w: World, w1: World, port: Port, g: Gid, pid: Pid)
    requires w1 == w.(txns := w1.txns, db := w1.db, log := w1.log) && g in w.reg.byId
    requires g in Attribute(w1, port, g, pid).reg.byId && Advances(w1, Attribute(w1, port, g, pid), port, g, pid)
    ensures Advances(w, Attribute(w1, port, g, pid), port, g, pid)
  {
    hide Attribute;
  }

  // ---- the next match ---------------------------------------------------------------------------

  lemma {:induction false} LogGrows(w: World, steps: seq<Step>)
    ensures w.log <= Run(w, steps).log
    decreases steps
  {
    hide Next;
    if steps != [] {
      var fired, pre, post := StepLogs(w, steps[0]);
      LogGrows(Next(w, steps[0]), steps[1..]);
    }
  }

  // No snapshot of the lobby is taken.
  predicate Unsnapped(es: seq<Event>, g: Gid) { forall i | 0 <= i < |es| :: !(es[i].Snapshot? && es[i].gid == g) }

  lemma {:induction false} StaysUnsnapped(log: seq<Event>, es: seq<Event>, g: Gid)
    requires HistoryOf(log, g).snapshot == {} && Unsnapped(es, g)
    ensures HistoryOf(log + es, g).snapshot == {}
  {
    if es == [] {
      assert log + es == log;
    } else {
      var init, last := es[..|es| - 1], es[|es| - 1];
      StaysUnsnapped(log, init, g);
      HistorySnoc(log + init, last, g);
      assert log + es == log + init + [last];
    }
  }

  lemma StartInv()
    ensures Inv(START)
  {
  }

  // The steps of a whole run, the ending among them.
  function WholeRun(first: seq<Step>, ending: Step, between: seq<Step>): seq<Step> { first + [ending] + between }

  // After a lobby's match was ended, whatever happens short of a snapshot leaves it expecting nobody, so that the
  // next close, whoever sends it, takes down exactly who is in the lobby then.
  lemma NextMatchStartsAnew(first: seq<Step>, port: Port, remote: Remote, id: ConnId, params: seq<Byte>, g: Gid,
                            between: seq<Step>, port': Port, remote': Remote, id': ConnId, params': seq<Byte>)
    requires Calls(Run(START, first), port, remote, id)
    requires Ends(Run(START, first).reg, params, Run(START, first).conns[id].userPid, g)
    requires var ended := Next(Run(START, first), Request(port, remote, EndGame(params)));
             var w := Run(ended, between);
             && g in w.reg.byId && Calls(w, port', remote', id') && Names(params', g)
             && forall i | |ended.log| <= i < |w.log| :: !(w.log[i].Snapshot? && w.log[i].gid == g)
    ensures var w := Run(Next(Run(START, first), Request(port, remote, EndGame(params))), between);
            var w' := Next(w, Request(port', remote', Close(params')));
            && w.reg.byId[g].expected == {}
            && g in w'.reg.byId && w'.reg.byId[g].closed && w'.reg.byId[g].received == {}
            && w'.reg.byId[g].expected == Pids(w.reg.byId[g].participants)
            && w'.log == w.log + [Snapshot(g, Pids(w.reg.byId[g].participants))]
  {
    hide Run, Next, Ends, Inv, HistoryOf, Honest, Calls, Names;
    var s := Request(port, remote, EndGame(params));
    var w0 := Run(START, first);
    var ended := Next(w0, s);
    var w := Run(ended, between);
    StartInv();
    InvRun(START, first);
    EndGameEnds(w0, port, remote, id, params);
    RunSnoc(START, first, s);
    RunAppend(START, first + [s], between);
    ReportsConserved(first + [s], g);
    ReportsConserved(WholeRun(first, s, between), g);
    LogGrows(ended, between);
    assert w.log == ended.log + w.log[|ended.log|..];
    StaysUnsnapped(ended.log, w.log[|ended.log|..], g);
    InvRun(START, WholeRun(first, s, between));
    CloseTakesSnapshot(w, port', remote', id', params');
  }
}
