/**
  Store-and-serve over whole runs: what a player last uploaded successfully is
  what every later read serves, whatever anybody else does.
*/
module Saves {
  import opened Options
  import opened Bytes
  import opened Lobbies
  import opened Machine
  import opened Invariants
  import opened Batch
  import opened MatchLog
  import SparkStats
  import Career

  // A player's last stored upload.
  function LastSaved(log: seq<Event>, pid: Pid): Option<seq<Word>> {
    if log == [] then None
    else
      var e := log[|log| - 1];
      if e.Saved? && e.pid == pid then Some(e.vec0) else LastSaved(log[..|log| - 1], pid)
  }

  lemma {:induction false} LastSavedKept(log: seq<Event>, es: seq<Event>, pid: Pid)
    requires forall i | 0 <= i < |es| :: es[i].Saved? ==> es[i].pid != pid
    ensures LastSaved(log + es, pid) == LastSaved(log, pid)
  {
    if es == [] {
      assert log + es == log;
    } else {
      var init, last := es[..|es| - 1], es[|es| - 1];
      LastSavedKept(log, init, pid);
      assert (log + es)[..|log + es| - 1] == log + init;
    }
  }

  ghost predicate Faithful(w: World) {
    forall pid ::
      match LastSaved(w.log, pid)
      case None => pid !in w.db.career
      case Some(v) => pid in w.db.career && w.db.career[pid] == Career.PackVec0(v)
  }

  // Steps that store nothing.
  lemma FaithfulUnsaved(w: World, w': World, es: seq<Event>)
    requires Faithful(w) && w'.db.career == w.db.career && w'.log == w.log + es
    requires forall i | 0 <= i < |es| :: !es[i].Saved?
    ensures Faithful(w')
    ensures forall pid :: LastSaved(w'.log, pid) == LastSaved(w.log, pid)
  {
    forall pid ensures LastSaved(w'.log, pid) == LastSaved(w.log, pid) { LastSavedKept(w.log, es, pid); }
  }

  // A stored upload replaces the player's own row and nobody else's.
  lemma FaithfulStored(w: World, pid: Pid, v0: seq<Word>, v1: seq<Word>, writeOk: bool)
    requires Faithful(w) && Stored(w, pid, v0, v1, writeOk).Some?
    ensures Faithful(Stored(w, pid, v0, v1, writeOk).value)
  {
    var w' := Stored(w, pid, v0, v1, writeOk).value;
    if v0 != [] {
      var rows := Career.ComputeRows(v0, v1).value;
      if writeOk && Career.Storable(rows) {
        Career.BoardsLeaveCareer(Career.UpsertCareer(w.db, pid, v0), pid, rows);
        forall p | p != pid ensures LastSaved(w'.log, p) == LastSaved(w.log, p) {
          LastSavedKept(w.log, [Saved(pid, v0)], p);
        }
        assert w'.log[..|w'.log| - 1] == w.log;
      }
    }
  }

  lemma FaithfulCounted(w: World, port: Port, pid: Pid, v0: seq<Word>)
    requires Faithful(w)
    ensures Faithful(Counted(w, port, pid, v0)) && Counted(w, port, pid, v0).db == w.db
    ensures forall p :: LastSaved(Counted(w, port, pid, v0).log, p) == LastSaved(w.log, p)
  {
    var es := CountedEvents(w, port, pid, v0);
    CountedSamePeople(w, port, pid, v0);
    FaithfulUnsaved(w, Counted(w, port, pid, v0), es);
  }

  lemma FaithfulReport(w: World, port: Port, c: Conn, params: seq<Byte>, writeOk: bool)
    requires Faithful(w)
    ensures Faithful(ReportStats(w, port, c, params, writeOk))
  {
    if params != [] {
      var found := SparkStats.SenderEntry(params, c.userPid);
      var v0 := if found.Some? then found.value.vec0 else [];
      var v1 := if found.Some? then found.value.vec1 else [];
      if Stored(w, c.userPid, v0, v1, writeOk).Some? {
        FaithfulStored(w, c.userPid, v0, v1, writeOk);
        FaithfulCounted(Stored(w, c.userPid, v0, v1, writeOk).value, port, c.userPid, v0);
      }
    }
  }

  // Everything but a report leaves the store and its log alone.
  lemma HandleUnsaved(w: World, port: Port, id: ConnId, call: Call) returns (es: seq<Event>)
    requires id < |w.conns| && !call.Report?
    ensures Handle(w, port, id, call).db == w.db && Handle(w, port, id, call).log == w.log + es
    ensures forall i | 0 <= i < |es| :: !es[i].Saved? && !es[i].Replied? && !es[i].Burned?
  {
    match call
    case Create(raw) => es := [Created(w.reg.nextId, w.conns[id].userPid)];
    case Join(params) => es := MembershipSilent(w, port, id, w.conns[id], call, Handle(w, port, id, call));
    case Leave(params) => es := MembershipSilent(w, port, id, w.conns[id], call, Handle(w, port, id, call));
    case Destroy(params) => es := MembershipSilent(w, port, id, w.conns[id], call, Handle(w, port, id, call));
    case Close(params) => es := CloseUnsaved(w, params);
    case EndGame(params) => es := EndGameUnsaved(w, w.conns[id], params);
    case Open(_) | RegisterEx(_, _) =>
      es := [];
      assert w.log == w.log + [];
  }

  lemma CloseUnsaved(w: World, params: seq<Byte>) returns (es: seq<Event>)
    ensures CloseParticipation(w, params).db == w.db && CloseParticipation(w, params).log == w.log + es
    ensures forall i | 0 <= i < |es| :: es[i].Snapshot?
  {
    es := [];
    assert w.log == w.log + [];
    if GidOf(params) in w.reg.byId && w.reg.byId[GidOf(params)].expected == {} {
      es := [Snapshot(GidOf(params), Pids(w.reg.byId[GidOf(params)].participants))];
    }
  }

  lemma EndGameUnsaved(w: World, c: Conn, params: seq<Byte>) returns (es: seq<Event>)
    ensures HandleEndGame(w, c, params).db == w.db && HandleEndGame(w, c, params).log == w.log + es
    ensures forall i | 0 <= i < |es| :: es[i].Cancelled?
  {
    var target := EndGameTarget(w, GidOf(params), c.userPid);
    es := [];
    assert w.log == w.log + [];
    if target.Some? && (w.reg.byId[target.value].timer.Some? || w.reg.byId[target.value].expected != {}) {
      es := [Cancelled(target.value)];
    }
  }

  lemma {:induction false} ReapUnsaved(w: World, port: Port, stale: seq<Remote>)
    requires Faithful(w)
    ensures Faithful(ReapAll(w, port, stale))
    ensures forall pid :: LastSaved(ReapAll(w, port, stale).log, pid) == LastSaved(w.log, pid)
    decreases stale
  {
    if stale != [] {
      FaithfulUnsaved(w, HandleDisconnect(w, port, stale[0]), [Closed(stale[0], DroppedBy(w.reg, stale[0]))]);
      ReapUnsaved(HandleDisconnect(w, port, stale[0]), port, stale[1..]);
    }
  }

  // The step is a report by `pid` itself.
  predicate ReportBy(w: World, s: Step, pid: Pid) {
    s.Request? && s.call.Report? && Established(w, s.port, s.remote).Some?
    && w.conns[Established(w, s.port, s.remote).value].userPid == pid
  }

  lemma FaithfulNext(w: World, s: Step)
    requires Faithful(w)
    ensures Faithful(Next(w, s))
    ensures forall pid | !ReportBy(w, s, pid) :: LastSaved(Next(w, s).log, pid) == LastSaved(w.log, pid)
  {
    match s
    case Disconnect(port, remote) => FaithfulUnsaved(w, Next(w, s), [Closed(remote, DroppedBy(w.reg, remote))]);
    case Reap(port, stale) => ReapUnsaved(w, port, stale);
    case Expire(t) => FaithfulTimeout(w, t);
    case Request(port, remote, call) =>
      if Established(w, port, remote).Some? {
        var id := Established(w, port, remote).value;
        if call.Report? {
          FaithfulReport(w, port, w.conns[id], call.params, call.writeOk);
          forall pid | pid != w.conns[id].userPid
            ensures LastSaved(Next(w, s).log, pid) == LastSaved(w.log, pid)
          {
            ReportKeepsOthers(w, port, w.conns[id], call.params, call.writeOk, pid);
          }
        } else {
          var es := HandleUnsaved(w, port, id, call);
          FaithfulUnsaved(w, Next(w, s), es);
        }
      }
    case _ =>
  }

  lemma ReportKeepsOthers(w: World, port: Port, c: Conn, params: seq<Byte>, writeOk: bool, pid: Pid)
    requires pid != c.userPid
    ensures LastSaved(ReportStats(w, port, c, params, writeOk).log, pid) == LastSaved(w.log, pid)
  {
    var counted, w1, es, v0 := ReportParts(w, port, c, params, writeOk);
    if counted {
      var rest := CountedEvents(w1, port, c.userPid, v0);
      LastSavedKept(w.log, es, pid);
      LastSavedKept(w1.log, rest, pid);
    }
  }

  lemma FaithfulTimeout(w: World, t: TimerId)
    requires Faithful(w)
    ensures Faithful(OnTimeout(w, t))
    ensures forall pid :: LastSaved(OnTimeout(w, t).log, pid) == LastSaved(w.log, pid)
  {
    assert w.log == w.log + [];
    if t in w.timers && w.timers[t].gid in w.reg.byId {
      var es := FireEvents(w.(timers := w.timers - {t}), w.timers[t].port, w.timers[t].gid, TimedOut);
      FaithfulUnsaved(w, OnTimeout(w, t), if OnTimeout(w, t).log == w.log then [] else es);
    }
  }

  lemma {:induction false} FaithfulRun(w: World, steps: seq<Step>)
    requires Faithful(w)
    ensures Faithful(Run(w, steps))
    decreases steps
  {
    if steps != [] {
      FaithfulNext(w, steps[0]);
      FaithfulRun(Next(w, steps[0]), steps[1..]);
    }
  }

  // ---- the theorems --------------------------------------------------------------------------

  // In every run, slot i of a player's last stored upload is what m=9 serves it: at vec1[i+5] for
  // cat 101 within the 96 slots, at vec1[i-56] for the documented slots of cat 102.
  lemma ServedIsLastSaved(steps: seq<Step>, pid: Pid, i: nat)
    requires LastSaved(Run(START, steps).log, pid).Some? && i < SparkStats.VEC0_LEN
    ensures var w := Run(START, steps); var v := Career.Padded(LastSaved(w.log, pid).value);
            && (i + 5 < SparkStats.VEC1_LEN ==> Career.ServedEntry(w.db, 101, pid).vec1[i + 5] == v[i])
            && (i >= 56 && Career.Cat102Slot(i - 56) ==> Career.ServedEntry(w.db, 102, pid).vec1[i - 56] == v[i])
  {
    FaithfulRun(START, steps);
    Career.ServedIsSaved(Run(START, steps).db, pid, LastSaved(Run(START, steps).log, pid).value, i);
  }

  // The same on the wire: a client that finds its pid in the bytes of an m=9 reply, whoever else was asked
  // about, reads its last stored upload there.
  lemma UploadComesBack(steps: seq<Step>, pids: seq<Pid>, pid: Pid, i: nat)
    requires LastSaved(Run(START, steps).log, pid).Some? && i < SparkStats.VEC0_LEN
    requires |pids| < 0x1_0000_0000 && pid in pids
    ensures var db, v := Run(START, steps).db, Career.Padded(LastSaved(Run(START, steps).log, pid).value);
            var career := SparkStats.FindEntry(Career.UserStatsReply(db, 101, pids), 4, |pids|, pid);
            var specials := SparkStats.FindEntry(Career.UserStatsReply(db, 102, pids), 4, |pids|, pid);
            && career.Some? && specials.Some?
            && |career.value.vec1| == |specials.value.vec1| == SparkStats.VEC1_LEN
            && (i + 5 < SparkStats.VEC1_LEN ==> career.value.vec1[i + 5] == v[i])
            && (i >= 56 && Career.Cat102Slot(i - 56) ==> specials.value.vec1[i - 56] == v[i])
  {
    hide Run, LastSaved, SparkStats.FindEntry, Career.UserStatsReply, Career.Padded;
    var db := Run(START, steps).db;
    ServedIsLastSaved(steps, pid, i);
    Career.ServedReadsBack(db, 101, pids, pid);
    Career.ServedReadsBack(db, 102, pids, pid);
  }

  // A report whose rows can be computed is stored whole or not at all: if the write succeeds the upload's
  // vec0 becomes the player's last saved one, otherwise neither table changes.
  lemma ReportStoresOrNot(w: World, port: Port, c: Conn, params: seq<Byte>, writeOk: bool, v0: seq<Word>, v1: seq<Word>)
    requires Faithful(w) && SparkStats.SenderEntry(params, c.userPid).Some?
    requires SparkStats.SenderEntry(params, c.userPid).value.vec0 == v0 != []
    requires SparkStats.SenderEntry(params, c.userPid).value.vec1 == v1
    requires Career.ComputeRows(v0, v1).Some?
    ensures var w' := ReportStats(w, port, c, params, writeOk); var rows := Career.ComputeRows(v0, v1).value;
            if writeOk && Career.Storable(rows)
            then LastSaved(w'.log, c.userPid) == Some(v0)
                 && w'.db == Career.UpsertBoards(Career.UpsertCareer(w.db, c.userPid, v0), c.userPid, rows)
            else w'.db == w.db && LastSaved(w'.log, c.userPid) == LastSaved(w.log, c.userPid)
  {
    FaithfulStored(w, c.userPid, v0, v1, writeOk);
    var w1 := Stored(w, c.userPid, v0, v1, writeOk).value;
    FaithfulCounted(w1, port, c.userPid, v0);
  }

  // ---- other players -------------------------------------------------------------------------

  // Both tables hold the same rows of a player.
  ghost predicate SameRows(a: Career.Store, b: Career.Store, pid: Pid) {
    && (pid in a.career <==> pid in b.career) && (pid in a.career ==> a.career[pid] == b.career[pid])
    && (forall cat :: ((pid, cat) in a.boards <==> (pid, cat) in b.boards)
                      && ((pid, cat) in a.boards ==> a.boards[(pid, cat)] == b.boards[(pid, cat)]))
  }

  lemma {:induction false} ReapKeepsStore(w: World, port: Port, stale: seq<Remote>)
    ensures ReapAll(w, port, stale).db == w.db
    decreases stale
  {
    if stale != [] {
      ReapKeepsStore(HandleDisconnect(w, port, stale[0]), port, stale[1..]);
    }
  }

  lemma ReportKeepsRows(w: World, port: Port, c: Conn, params: seq<Byte>, writeOk: bool, pid: Pid)
    requires pid != c.userPid
    ensures SameRows(w.db, ReportStats(w, port, c, params, writeOk).db, pid)
  {
    hide Counted, SparkStats.SenderEntry, Career.PackVec0, Career.ComputeRows;
    if params != [] {
      var found := SparkStats.SenderEntry(params, c.userPid);
      var v0 := if found.Some? then found.value.vec0 else [];
      var v1 := if found.Some? then found.value.vec1 else [];
      var stored := Stored(w, c.userPid, v0, v1, writeOk);
      if stored.Some? {
        CountedSamePeople(stored.value, port, c.userPid, v0);
        assert SameRows(w.db, stored.value.db, pid) by {
          if v0 != [] {
            var rows := Career.ComputeRows(v0, v1).value;
            Career.BoardsLeaveCareer(Career.UpsertCareer(w.db, c.userPid, v0), c.userPid, rows);
          }
        }
      }
    }
  }

  lemma RowsNext(w: World, s: Step, pid: Pid)
    requires !ReportBy(w, s, pid)
    ensures SameRows(w.db, Next(w, s).db, pid)
  {
    hide ReapAll, ReportStats;
    match s
    case Reap(port, stale) => ReapKeepsStore(w, port, stale);
    case Request(port, remote, call) =>
      if Established(w, port, remote).Some? {
        var id := Established(w, port, remote).value;
        if call.Report? {
          ReportKeepsRows(w, port, w.conns[id], call.params, call.writeOk, pid);
        } else {
          var es := HandleUnsaved(w, port, id, call);
        }
      }
    case _ =>
  }

  // Over any run in which a player does not report, both tables keep exactly the player's rows, whoever else
  // reports, comes or goes, so that every category serves the player the same.
  lemma {:induction false} OthersDoNotMatter(w: World, steps: seq<Step>, pid: Pid)
    requires forall i | 0 <= i < |steps| :: !ReportBy(Run(w, steps[..i]), steps[i], pid)
    ensures SameRows(w.db, Run(w, steps).db, pid)
    ensures forall cat: nat :: Career.ServedEntry(Run(w, steps).db, cat, pid) == Career.ServedEntry(w.db, cat, pid)
    decreases steps
  {
    hide Next, SparkStats.EntryName;
    if steps != [] {
      var w1, rest := Next(w, steps[0]), steps[1..];
      assert steps[..0] == [];
      RowsNext(w, steps[0], pid);
      forall i | 0 <= i < |rest| ensures !ReportBy(Run(w1, rest[..i]), rest[i], pid) {
        assert steps[..i + 1][1..] == rest[..i];
        assert Run(w, steps[..i + 1]) == Run(w1, rest[..i]);
      }
      OthersDoNotMatter(w1, rest, pid);
    }
  }
}
