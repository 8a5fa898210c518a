/**
  What match requests and timers log: batch events, replies and stats pushes,
  and for a stored upload one `Saved` event in front. Never anything about who
  is in which lobby.
*/
module MatchLog {
  import opened Bytes
  import opened Lobbies
  import opened Machine
  import opened Invariants
  import opened Batch
  import opened Orphans

  predicate AboutMatches(e: Event) { !AboutMembers(e) }

  predicate AllAboutMatches(es: seq<Event>) { forall i | 0 <= i < |es| :: AboutMatches(es[i]) }

  // The same without stored uploads.
  predicate AboutBatches(e: Event) { !AboutMembers(e) && !e.Saved? }

  predicate AllAboutBatches(es: seq<Event>) { forall i | 0 <= i < |es| :: AboutBatches(es[i]) }

  // And without replies: what one round of reports makes a lobby log.
  predicate AboutRounds(e: Event) { !AboutMembers(e) && !e.Saved? && !e.Replied? && !e.Burned? }

  predicate AllAboutRounds(es: seq<Event>) { forall i | 0 <= i < |es| :: AboutRounds(es[i]) }

  lemma RoundsThen(w: World, w1: World, w2: World, a: seq<Event>, b: seq<Event>)
    requires w1.log == w.log + a && w2.log == w1.log + b && AllAboutRounds(a) && AllAboutRounds(b)
    ensures w2.log == w.log + (a + b) && AllAboutRounds(a + b)
  {
  }

  // Match events logged in two goes.
  lemma Then(w: World, w1: World, w2: World, a: seq<Event>, b: seq<Event>)
    requires w1.log == w.log + a && w2.log == w1.log + b && AllAboutBatches(a) && AllAboutBatches(b)
    ensures w2.log == w.log + (a + b) && AllAboutBatches(a + b)
  {
  }

  lemma FireEvents(w: World, port: Port, gid: Gid, reason: Reason) returns (es: seq<Event>)
    requires gid in w.reg.byId
    ensures Fire(w, port, gid, reason).log == w.log + es && AllAboutRounds(es)
  {
    var l := w.reg.byId[gid];
    if l.received == {} {
      es := [];
    } else {
      StatsSends(w.table, w.txns, w.db, port, gid, l.participants);
      es := [Fired(gid, reason, l.received)] + StatsPushes(w.table, w.txns, w.db, port, gid, l.participants);
    }
  }

  lemma RecordEvents(w: World, port: Port, gid: Gid, pid: Pid) returns (es: seq<Event>)
    requires gid in w.reg.byId
    ensures Record(w, port, gid, pid).log == w.log + es && AllAboutRounds(es)
  {
    var l := w.reg.byId[gid].(received := w.reg.byId[gid].received + {pid});
    var w' := w.(reg := Put(w.reg, gid, l), log := w.log + [Reported(gid, pid)]);
    es := [Reported(gid, pid)];
    if l.expected <= l.received {
      var fired := FireEvents(w', port, gid, AllReported);
      RoundsThen(w, w', Record(w, port, gid, pid), es, fired);
      es := es + fired;
    } else if l.timer.None? {
      RoundsThen(w, w', Record(w, port, gid, pid), es, [Armed(w'.nextTimer, gid)]);
      es := es + [Armed(w'.nextTimer, gid)];
    }
  }

  lemma AttributeEvents(w: World, port: Port, gid: Gid, pid: Pid) returns (es: seq<Event>)
    requires gid in w.reg.byId
    ensures Attribute(w, port, gid, pid).log == w.log + es && AllAboutRounds(es)
  {
    var l := w.reg.byId[gid];
    var snapshot := if l.expected == {} then [Snapshot(gid, Pids(l.participants))] else [];
    assert Seeded(w, gid).log == w.log + snapshot;
    var recorded := RecordEvents(Seeded(w, gid), port, gid, pid);
    RoundsThen(w, Seeded(w, gid), Attribute(w, port, gid, pid), snapshot, recorded);
    es := snapshot + recorded;
  }

  lemma CountedEvents(w: World, port: Port, pid: Pid, v0: seq<Word>) returns (es: seq<Event>)
    ensures Counted(w, port, pid, v0).log == w.log + es && AllAboutBatches(es)
  {
    hide Attributed, Loggable;
    var txn := TxnOf(w.txns, pid) + 1;
    if !Loggable(v0) {
      es := [Burned(pid, txn)];
    } else {
      var w1 := w.(txns := w.txns[pid := txn]);
      es := AttributedEvents(w1, port, pid);
      Then(w, Attributed(w1, port, pid), Counted(w, port, pid, v0), es, [Replied(pid, txn)]);
      es := es + [Replied(pid, txn)];
    }
  }

  lemma AttributedEvents(w: World, port: Port, pid: Pid) returns (es: seq<Event>)
    ensures Attributed(w, port, pid).log == w.log + es && AllAboutRounds(es)
  {
    es := [];
    assert w.log == w.log + [];
    var home := FirstWith(w.reg, w.reg.order, pid);
    if home.Some? {
      es := AttributeEvents(w, port, home.value, pid);
    }
  }

  lemma SavedThen(w: World, w1: World, w2: World, a: seq<Event>, b: seq<Event>)
    requires w1.log == w.log + a && w2.log == w1.log + b && AllAboutMatches(a) && AllAboutBatches(b)
    ensures w2.log == w.log + (a + b) && AllAboutMatches(a + b)
  {
  }

  lemma ReportEvents(w: World, port: Port, c: Conn, params: seq<Byte>, writeOk: bool) returns (es: seq<Event>)
    ensures ReportStats(w, port, c, params, writeOk).log == w.log + es && AllAboutMatches(es)
  {
    var counted, w1, saved, v0 := ReportParts(w, port, c, params, writeOk);
    if counted {
      var rest := CountedEvents(w1, port, c.userPid, v0);
      SavedThen(w, w1, Counted(w1, port, c.userPid, v0), saved, rest);
      es := saved + rest;
    } else {
      es := [];
      assert w.log == w.log + [];
    }
  }

  lemma MatchEvents(w: World, port: Port, id: ConnId, call: Call) returns (es: seq<Event>)
    requires id < |w.conns| && MatchCall(call)
    ensures Handle(w, port, id, call).log == w.log + es && AllAboutMatches(es)
  {
    es := [];
    var c := w.conns[id];
    match call
    case Report(params, writeOk) => es := ReportEvents(w, port, c, params, writeOk);
    case Close(params) =>
      if GidOf(params) in w.reg.byId {
        var l := w.reg.byId[GidOf(params)];
        es := if l.expected == {} then [Snapshot(GidOf(params), Pids(l.participants))] else [];
      }
    case EndGame(params) =>
      var target := EndGameTarget(w, GidOf(params), c.userPid);
      if HandleEndGame(w, c, params) != w {
        es := [Cancelled(target.value)];
      }
    case _ =>
  }
}
