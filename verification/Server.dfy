/**
  The lobby handlers as they run: one object holding the tables they share,
  methods that change it in place and push events from loops
  (protocols/game.py, protocols/matchmaking.py, protocols/notification.py, the
  close hooks of server.py). Every method is proved to take the shared state
  exactly where the step machine of `Machine` takes the world, so everything
  proved about runs of the machine holds of runs of these methods.
*/
module Server {
  import opened Options
  import opened Bytes
  import opened SparkGame
  import opened Lobbies
  import opened Gatherings
  import M = Machine
  import MatchReply
  import SparkStats
  import Career

  class LobbyServer {
    var table: map<M.Key, ConnId>       // `prudp.connections` of both ports
    var conns: seq<M.Conn>              // every connection object so far
    const gatherings: GatheringRegistry
    var txns: map<Pid, nat>             // `_STATS_TXN_ID`
    var timers: map<TimerId, M.Timer>   // what the event loop still has to call
    var nextTimer: TimerId
    const database: Career.Database
    ghost var log: seq<M.Event>

    ghost predicate Valid()
      reads this, gatherings
    {
      gatherings.Valid()
    }

    ghost function View(): M.World
      requires Valid()
      reads this, gatherings, gatherings.objects, database
    {
      M.World(table, conns, gatherings.View(), txns, timers, nextTimer, database.View(), log)
    }

    constructor ()
      ensures Valid() && View() == M.START && gatherings.objects == {}
      ensures fresh(gatherings) && fresh(database)
    {
      table, conns, txns, timers, nextTimer, log := map[], [], map[], map[], 0, [];
      gatherings := new GatheringRegistry();
      database := new Career.Database();
    }

    // ---- pushes ---------------------------------------------------------------------

    ghost method Note(e: M.Event)
      modifies `log
      ensures log == old(log) + [e]
    {
      log := log + [e];
    }

    // `_broadcast`
    method Broadcast(port: M.Port, recipients: seq<Participant>, subject: Pid, push: M.Push) returns (sent: nat)
      modifies `log
      ensures log == old(log) + M.Broadcast(table, port, recipients, subject, push)
      ensures sent == |M.Broadcast(table, port, recipients, subject, push)|
    {
      sent := 0;
      for i := 0 to |recipients|
        invariant log == old(log) + M.Broadcast(table, port, recipients[..i], subject, push)
        invariant sent == |M.Broadcast(table, port, recipients[..i], subject, push)|
      {
        var p := recipients[i];
        assert recipients[..i + 1][..i] == recipients[..i];
        if p.pid != subject && M.Key(port, p.remote) in table {
          Note(M.Sent(port, p.remote, push));
          sent := sent + 1;
        }
      }
      assert recipients[..|recipients|] == recipients;
    }

    // `push_participants_to_joiner`, to the remote of the joiner's own entry.
    method Backfill(port: M.Port, gid: Gid, ps: seq<Participant>, joiner: Pid, otherwise: Remote)
      modifies `log
      ensures var to := M.EntryRemote(ps, joiner, otherwise);
              log == old(log) + if M.Key(port, to) in table then M.Backfill(port, to, gid, ps) else []
    {
      var to := M.EntryRemote(ps, joiner, otherwise);
      if M.Key(port, to) !in table {
        assert log + [] == log;
        return;
      }
      for i := 0 to |ps|
        invariant log == old(log) + M.Backfill(port, to, gid, ps[..i])
      {
        Note(M.Sent(port, to, M.Insert(gid, ps[i].pid)));
        assert M.Backfill(port, to, gid, ps[..i + 1])
            == M.Backfill(port, to, gid, ps[..i]) + [M.Sent(port, to, M.Insert(gid, ps[i].pid))];
      }
      assert ps[..|ps|] == ps;
    }

    method Probes(port: M.Port, to: Remote, urls: seq<string>)
      modifies `log
      ensures log == old(log) + M.Probes(port, to, urls)
    {
      for i := 0 to |urls|
        invariant log == old(log) + M.Probes(port, to, urls[..i])
      {
        Note(M.Sent(port, to, M.Probe(urls[i])));
        assert M.Probes(port, to, urls[..i + 1])
            == M.Probes(port, to, urls[..i]) + [M.Sent(port, to, M.Probe(urls[i]))];
      }
      assert urls[..|urls|] == urls;
    }

    // `push_stats_processed`
    method PushStats(port: M.Port, gid: Gid, ps: seq<Participant>)
      modifies `log
      ensures log == old(log) + M.StatsPushes(table, txns, database.View(), port, gid, ps)
    {
      var db := Career.Store(database.career, database.boards);
      for i := 0 to |ps|
        invariant log == old(log) + M.StatsPushes(table, txns, db, port, gid, ps[..i])
      {
        var p := ps[i];
        assert ps[..i + 1][..i] == ps[..i];
        if M.Key(port, p.remote) in table {
          Note(M.Sent(port, p.remote, M.Stats(gid, p.pid, M.TxnOf(txns, p.pid), Career.CareerCash(db, p.pid))));
        }
      }
      assert ps[..|ps|] == ps;
    }

    // ---- connections ------------------------------------------------------------------

    method HandleSyn(port: M.Port, remote: Remote)
      requires Valid()
      modifies this
      ensures Valid() && View() == M.HandleSyn(old(View()), port, remote)
    {
      table := table[M.Key(port, remote) := |conns|];
      conns := conns + [M.Conn(port, remote, false, 0, [])];
    }

    method HandleConnect(port: M.Port, remote: Remote, signatureOk: bool, ticket: Option<Pid>)
      requires Valid()
      modifies this
      ensures Valid() && View() == M.HandleConnect(old(View()), port, remote, signatureOk, ticket)
    {
      var key := M.Key(port, remote);
      if key !in table || table[key] >= |conns| || conns[table[key]].established || !signatureOk { return; }
      var c := conns[table[key]];
      c := c.(established := true);
      if port == M.Secure && ticket.Some? {
        c := c.(userPid := ticket.value);
      }
      conns := conns[table[key] := c];
    }

    // The close hooks in the order they are registered, then the table entry goes.
    method HandleDisconnect(port: M.Port, remote: Remote)
      requires Valid()
      modifies this, gatherings, gatherings.objects
      ensures Valid() && gatherings.objects == old(gatherings.objects)
      ensures View() == M.HandleDisconnect(old(View()), port, remote)
    {
      hide GatheringRegistry.View, GatheringRegistry.Valid, Lobbies.DestroyByOwnerRemote, Lobbies.RemoveByRemote,
           M.DroppedBy;
      ghost var dropped := M.DroppedBy(gatherings.View(), remote);
      gatherings.DestroyByOwnerRemote(remote);
      gatherings.RemoveParticipantByRemote(remote);
      ghost var reg := gatherings.View();
      Note(M.Closed(remote, dropped));
      table := table - {M.Key(port, remote)};
      assert gatherings.View() == reg;
    }

    method ReapIdle(port: M.Port, stale: seq<Remote>)
      requires Valid()
      modifies this, gatherings, gatherings.objects
      ensures Valid() && gatherings.objects == old(gatherings.objects)
      ensures View() == M.ReapAll(old(View()), port, stale)
    {
      hide M.HandleDisconnect;
      ghost var start := View();
      for j := 0 to |stale|
        invariant Valid() && gatherings.objects == old(gatherings.objects)
        invariant M.ReapAll(View(), port, stale[j..]) == M.ReapAll(start, port, stale)
      {
        assert stale[j..][0] == stale[j] && stale[j..][1..] == stale[j + 1..];
        HandleDisconnect(port, stale[j]);
      }
    }

    // ---- membership ---------------------------------------------------------------------

    method CreateGathering(id: ConnId, raw: seq<Byte>) returns (gid: Gid)
      requires Valid() && id < |conns|
      modifies this`log, gatherings
      ensures Valid() && fresh(gatherings.objects - old(gatherings.objects)) && gid == old(gatherings.nextId)
      ensures View() == M.CreateGathering(old(View()), id, conns[id], raw)
    {
      hide GatheringRegistry.View, GatheringRegistry.Valid, Lobbies.Create;
      gid := gatherings.Create(conns[id].userPid, conns[id].remote, raw, Some(id));
      Note(M.Created(gid, conns[id].userPid));
    }

    // The guards of `join_gathering` in its order.
    method Admits(gid: Gid, pid: Pid) returns (ok: bool)
      requires Valid() && gid in gatherings.byId
      ensures ok == M.Admits(View(), View().reg.byId[gid], pid)
    {
      hide Lobbies.PublicRemaining;
      var g := gatherings.byId[gid];
      if g.hostConn.None? || g.hostConn.value >= |conns| || conns[g.hostConn.value].urls == [] { return false; }
      var invited := pid in g.invited;
      var left := g.PublicRemaining();
      ok := !(|g.participants| >= MAX_PARTICIPANTS || (!invited && left <= 0));
    }

    method JoinGathering(port: M.Port, id: ConnId, params: seq<Byte>) returns (joined: bool)
      requires Valid() && id < |conns|
      modifies this`log, gatherings.objects
      ensures Valid() && View() == M.JoinGathering(old(View()), port, id, conns[id], params)
    {
      hide GatheringRegistry.View, GatheringRegistry.Valid, M.JoinEvents, Lobbies.AddParticipant,
           Lobbies.PublicRemaining;
      var c := conns[id];
      if |params| < 4 { return false; }
      var gid: nat := U32(params, 0);
      if gid !in gatherings.byId { return false; }
      joined := Admits(gid, c.userPid);
      if joined { Enter(port, id, gid); }
    }

    // What follows the guards: the new entry, then the pushes.
    method Enter(port: M.Port, id: ConnId, gid: Gid)
      requires Valid() && id < |conns| && gid in gatherings.byId
      requires gatherings.byId[gid].hostConn.Some? && gatherings.byId[gid].hostConn.value < |conns|
      modifies this`log, gatherings.objects
      ensures Valid()
      ensures var w := old(View()); var c, host := conns[id], conns[w.reg.byId[gid].hostConn.value].remote;
              var reg := Lobbies.AddParticipant(w.reg, gid, Participant(c.userPid, c.remote, Some(id)));
              View() == w.(reg := reg,
                           log := w.log + M.JoinEvents(table, port, host, c, gid, reg.byId[gid].participants))
    {
      hide GatheringRegistry.View, GatheringRegistry.Valid, M.JoinEvents, Lobbies.Admit;
      var c := conns[id];
      gatherings.AddParticipant(gid, Participant(c.userPid, c.remote, Some(id)));
      ghost var reg := gatherings.View();
      var g := gatherings.byId[gid];
      Announce(port, c, conns[g.hostConn.value].remote, gid, g.participants);
      assert gatherings.View() == reg;
    }

    // Probes to the host, the joiner to the others, everybody to the joiner.
    method Announce(port: M.Port, c: M.Conn, host: Remote, gid: Gid, ps: seq<Participant>)
      modifies `log
      ensures log == old(log) + M.JoinEvents(table, port, host, c, gid, ps)
    {
      hide M.Probes, M.Broadcast, M.Backfill, M.EntryRemote;
      Note(M.Joined(gid, c.userPid));
      Probes(port, host, c.urls);
      var sent := Broadcast(port, ps, c.userPid, M.Insert(gid, c.userPid));
      Backfill(port, gid, ps, c.userPid, c.remote);
    }

    method LeaveGathering(port: M.Port, id: ConnId, params: seq<Byte>) returns (removed: bool)
      requires Valid() && id < |conns|
      modifies this`log, gatherings.objects
      ensures Valid() && View() == M.LeaveGathering(old(View()), port, conns[id], params)
    {
      hide GatheringRegistry.View, GatheringRegistry.Valid, M.LeaveEvents, Without;
      var pid := conns[id].userPid;
      var gid: nat := if |params| >= 4 then U32(params, 0) else 0;
      if gid !in gatherings.byId { return false; }
      removed := gatherings.RemoveParticipant(gid, pid);
      if removed {
        Farewell(port, gid, pid, gatherings.byId[gid].participants);
      } else {
        WithoutSame(old(gatherings.View()), gid, pid);
      }
    }

    // The departure is announced to those who stay.
    method Farewell(port: M.Port, gid: Gid, pid: Pid, rest: seq<Participant>)
      requires Valid()
      modifies `log
      ensures Valid() && View() == old(View()).(log := old(log) + M.LeaveEvents(table, port, gid, pid, rest))
    {
      hide M.Broadcast;
      Conclude(M.Left(gid, pid));
      PushLeave(port, gid, pid, rest);
    }

    // `push_leave`
    method PushLeave(port: M.Port, gid: Gid, leaver: Pid, ps: seq<Participant>)
      requires Valid()
      modifies `log
      ensures Valid()
      ensures View() == old(View()).(log := old(log) + M.Broadcast(table, port, ps, leaver, M.Erase(gid, leaver)))
    {
      hide M.Broadcast;
      var sent := Broadcast(port, ps, leaver, M.Erase(gid, leaver));
    }

    // A removal that removes nobody changes nothing.
    lemma WithoutSame(r: Registry, gid: Gid, pid: Pid)
      requires gid in r.byId && |Without(r.byId[gid].participants, ByPid(pid))| == |r.byId[gid].participants|
      ensures Lobbies.RemoveParticipant(r, gid, pid) == r
    {
      WithoutSameSize(r.byId[gid].participants, ByPid(pid));
      assert r.byId[gid := r.byId[gid]] == r.byId;
    }

    method DestroyGathering(port: M.Port, id: ConnId, params: seq<Byte>)
      requires Valid() && id < |conns|
      modifies this`log, gatherings
      ensures Valid() && gatherings.objects == old(gatherings.objects)
      ensures View() == M.DestroyGathering(old(View()), port, conns[id], params)
    {
      hide GatheringRegistry.View, GatheringRegistry.Valid, M.Broadcast, Lobbies.Destroy;
      var pid := conns[id].userPid;
      var gid: nat := if |params| >= 4 then U32(params, 0) else 0;
      if gid !in gatherings.byId || gatherings.byId[gid].ownerPid != pid { return; }
      PushLeave(port, gid, pid, gatherings.byId[gid].participants);
      gatherings.Destroy(gid);
    }

    // ---- the end-of-match batch ------------------------------------------------------------

    // Take the snapshot if there is none.
    method Seed(gid: Gid)
      requires Valid() && gid in gatherings.byId
      modifies this`log, gatherings.objects
      ensures Valid() && View() == M.Seeded(old(View()), gid)
    {
      hide GatheringRegistry.View, GatheringRegistry.Valid;
      var g := gatherings.byId[gid];
      if g.expected != {} { return; }
      var pids := set p | p in g.participants :: p.pid;
      gatherings.SetBatch(gid, pids, {}, g.timer);
      Conclude(M.Snapshot(gid, pids));
    }

    method CloseParticipation(params: seq<Byte>)
      requires Valid()
      modifies this`log, gatherings.objects
      ensures Valid() && View() == M.CloseParticipation(old(View()), params)
    {
      hide M.Seeded;
      var gid: nat := if |params| >= 4 then U32(params, 0) else 0;
      if gid !in gatherings.byId { return; }
      gatherings.SetClosed(gid, true);
      Seed(gid);
    }

    method OpenParticipation(params: seq<Byte>)
      requires Valid()
      modifies gatherings.objects
      ensures Valid() && View() == M.OpenParticipation(old(View()), params)
    {
      gatherings.SetClosed(if |params| >= 4 then U32(params, 0) else 0, false);
    }

    // Cancel the pending timer of a lobby, if it has one.
    method Disarm(handle: Option<TimerId>)
      requires Valid()
      modifies `timers
      ensures Valid() && View() == old(View()).(timers := M.Unarmed(old(timers), handle))
    {
      if handle.Some? {
        timers := timers - {handle.value};
      }
    }

    // `_fire_stats_processed_batch`
    method Fire(port: M.Port, gid: Gid, reason: M.Reason)
      requires Valid() && gid in gatherings.byId
      modifies this`log, this`timers, gatherings.objects
      ensures Valid() && View() == M.Fire(old(View()), port, gid, reason)
    {
      hide GatheringRegistry.View, GatheringRegistry.Valid, M.Unarmed, M.StatsPushes;
      var g := gatherings.byId[gid];
      Disarm(g.timer);
      if g.received == {} {
        gatherings.SetBatch(gid, g.expected, g.received, None);
        return;
      }
      PushBatch(port, gid, reason, g.received, g.participants);
      gatherings.SetBatch(gid, {}, {}, None);
    }

    method PushBatch(port: M.Port, gid: Gid, reason: M.Reason, reported: set<Pid>, ps: seq<Participant>)
      requires Valid()
      modifies `log
      ensures Valid()
      ensures View() == old(View()).(log := old(log) + [M.Fired(gid, reason, reported)]
                                            + M.StatsPushes(table, txns, database.View(), port, gid, ps))
    {
      hide M.StatsPushes;
      Note(M.Fired(gid, reason, reported));
      PushStats(port, gid, ps);
    }

    // `_cancel_m12_batch`
    method CancelBatch(gid: Gid)
      requires Valid() && gid in gatherings.byId
      modifies this`log, this`timers, gatherings.objects
      ensures Valid() && View() == M.CancelBatch(old(View()), gid)
    {
      hide GatheringRegistry.View, GatheringRegistry.Valid, M.Unarmed;
      Disarm(gatherings.byId[gid].timer);
      gatherings.SetBatch(gid, {}, {}, None);
      Conclude(M.Cancelled(gid));
    }

    // `loop.call_later`: one more pending call.
    method Schedule(port: M.Port, gid: Gid)
      requires Valid()
      modifies `log, `timers, `nextTimer
      ensures Valid()
      ensures View() == old(View()).(timers := old(timers)[old(nextTimer) := M.Timer(gid, port)],
                                     nextTimer := old(nextTimer) + 1,
                                     log := old(log) + [M.Armed(old(nextTimer), gid)])
    {
      Note(M.Armed(nextTimer, gid));
      timers, nextTimer := timers[nextTimer := M.Timer(gid, port)], nextTimer + 1;
    }

    method Arm(port: M.Port, gid: Gid)
      requires Valid() && gid in gatherings.byId
      modifies this`log, this`timers, this`nextTimer, gatherings.objects
      ensures Valid() && View() == M.Arm(old(View()), port, gid)
    {
      hide GatheringRegistry.View, GatheringRegistry.Valid;
      var g := gatherings.byId[gid];
      gatherings.SetBatch(gid, g.expected, g.received, Some(nextTimer));
      Schedule(port, gid);
    }

    method Record(port: M.Port, gid: Gid, pid: Pid)
      requires Valid() && gid in gatherings.byId
      modifies this`log, this`timers, this`nextTimer, gatherings.objects
      ensures Valid() && View() == M.Record(old(View()), port, gid, pid)
    {
      hide GatheringRegistry.View, GatheringRegistry.Valid, M.Fire, M.Arm;
      var g := gatherings.byId[gid];
      gatherings.SetBatch(gid, g.expected, g.received + {pid}, g.timer);
      Conclude(M.Reported(gid, pid));
      if g.received >= g.expected {
        Fire(port, gid, M.AllReported);
      } else if g.timer.None? {
        Arm(port, gid);
      }
    }

    // The report goes to the first lobby that has the player.
    method Attribute(port: M.Port, pid: Pid)
      requires Valid()
      modifies this`log, this`timers, this`nextTimer, gatherings.objects
      ensures Valid() && View() == M.Attributed(old(View()), port, pid)
    {
      hide M.Seeded, M.Record, FirstWith;
      var home := gatherings.FindContaining(pid);
      if home.Some? {
        Seed(home.value);
        Record(port, home.value, pid);
      }
    }

    method Take(pid: Pid, txn: nat)
      requires Valid()
      modifies `txns
      ensures Valid() && View() == old(View()).(txns := old(txns)[pid := txn])
    {
      txns := txns[pid := txn];
    }

    ghost method Conclude(e: M.Event)
      requires Valid()
      modifies `log
      ensures Valid() && View() == old(View()).(log := old(log) + [e])
    {
      log := log + [e];
    }

    // From the transaction id on; false where the log line raises.
    method Count(port: M.Port, pid: Pid, v0: seq<Word>) returns (ok: bool)
      requires Valid()
      modifies this`log, this`timers, this`nextTimer, this`txns, gatherings.objects
      ensures Valid() && View() == M.Counted(old(View()), port, pid, v0)
      ensures ok == M.Loggable(v0)
    {
      hide GatheringRegistry.View, GatheringRegistry.Valid, M.Attributed, M.Loggable;
      var txn := M.TxnOf(txns, pid) + 1;
      Take(pid, txn);
      if !M.Loggable(v0) {
        Conclude(M.Burned(pid, txn));
        return false;
      }
      Attribute(port, pid);
      Conclude(M.Replied(pid, txn));
      ok := true;
    }

    // The storing half of `lifecycle_stub`; false where computing the rows raises.
    method Store(pid: Pid, v0: seq<Word>, v1: seq<Word>, writeOk: bool) returns (ok: bool)
      requires Valid()
      modifies this`log, database
      ensures Valid()
      ensures match M.Stored(old(View()), pid, v0, v1, writeOk)
              case None => !ok && View() == old(View())
              case Some(w) => ok && View() == w
      ensures ok <==> v0 == [] || Career.ComputeRows(v0, v1).Some?
    {
      hide GatheringRegistry.View, GatheringRegistry.Valid, Career.ComputeRows, Career.Storable, Career.UpsertBoards,
           Career.UpsertCareer;
      if v0 == [] { return true; }
      var rows := Career.ComputeRows(v0, v1);
      if rows.None? { return false; }
      var saved := database.Persist(pid, v0, rows.value, if writeOk then None else Some(0));
      if saved { Conclude(M.Saved(pid, v0)); }
      ok := true;
    }

    // m=12 ReportStats: the body of the answer, None where the handler raises.
    method ReportStats(port: M.Port, id: ConnId, params: seq<Byte>, writeOk: bool) returns (reply: Option<seq<Byte>>)
      requires Valid() && id < |conns|
      modifies this`log, this`timers, this`nextTimer, this`txns, gatherings.objects, database
      ensures Valid() && View() == M.ReportStats(old(View()), port, conns[id], params, writeOk)
      ensures reply == MatchReply.ReportReply(old(View()), conns[id], params)
    {
      hide M.Counted, M.Stored, MatchReply.Answer, SparkStats.SenderEntry, GatheringRegistry.View,
           GatheringRegistry.Valid;
      if params == [] { return Some([]); }
      var pid := conns[id].userPid;
      var vec0, vec1 := SparkStats.ParseSenderVectors(params, pid);
      var v0 := if vec0.Some? then vec0.value else [];
      var v1 := if vec1.Some? then vec1.value else [];
      reply := Settle(port, pid, v0, v1, writeOk);
    }

    // Store, count, answer.
    method Settle(port: M.Port, pid: Pid, v0: seq<Word>, v1: seq<Word>, writeOk: bool)
      returns (reply: Option<seq<Byte>>)
      requires Valid()
      modifies this`log, this`timers, this`nextTimer, this`txns, gatherings.objects, database
      ensures Valid()
      ensures match M.Stored(old(View()), pid, v0, v1, writeOk)
              case None => View() == old(View())
              case Some(w) => View() == M.Counted(w, port, pid, v0)
      ensures reply == MatchReply.Answer(old(View()), pid, v0, v1)
    {
      hide M.Counted, M.Stored, M.Loggable, Career.ComputeRows, Career.CareerCash, GatheringRegistry.View,
           GatheringRegistry.Valid, MatchReply.ReplyBody;
      var baseline := Career.CareerCash(Career.Store(database.career, database.boards), pid);
      var txn := M.TxnOf(txns, pid) + 1;
      var ok := Store(pid, v0, v1, writeOk);
      if !ok { return None; }
      ok := Count(port, pid, v0);
      if !ok { return None; }
      var body := MatchReply.WriteReply(pid, baseline, if |v0| > 5 then v0[5] else baseline, txn);
      reply := Some(body);
    }

    // The lobby named, else the caller's first.
    method FindTarget(params: seq<Byte>, pid: Pid) returns (target: Option<Gid>)
      requires Valid()
      ensures target == M.EndGameTarget(View(), M.GidOf(params), pid)
      ensures target.Some? ==> target.value in gatherings.byId
    {
      hide GatheringRegistry.View, GatheringRegistry.Valid, FirstWith;
      var gid := if |params| >= 4 then U32(params, 0) as nat else 0;
      if gid in gatherings.byId { return Some(gid); }
      target := gatherings.FindContaining(pid);
    }

    // m=15 EndGame
    method EndGame(id: ConnId, params: seq<Byte>)
      requires Valid() && id < |conns|
      modifies this`log, this`timers, gatherings.objects
      ensures Valid() && View() == M.HandleEndGame(old(View()), conns[id], params)
    {
      hide GatheringRegistry.View, GatheringRegistry.Valid, M.CancelBatch, M.EndGameTarget, M.GidOf;
      var target := FindTarget(params, conns[id].userPid);
      if target.Some? {
        var g := gatherings.byId[target.value];
        if g.timer.Some? || g.expected != {} {
          CancelBatch(target.value);
        }
      }
    }

    // `_on_m12_timeout`, called by the event loop.
    method OnTimeout(t: TimerId)
      requires Valid()
      modifies this`log, this`timers, gatherings.objects
      ensures Valid() && View() == M.OnTimeout(old(View()), t)
    {
      hide GatheringRegistry.View, GatheringRegistry.Valid, M.Fire;
      if t !in timers { return; }
      var gid, port := timers[t].gid, timers[t].port;
      timers := timers - {t};
      if gid !in gatherings.byId { return; }
      var g := gatherings.byId[gid];
      if g.received == {} || g.received >= g.expected {
        gatherings.SetBatch(gid, g.expected, g.received, None);
        return;
      }
      Fire(port, gid, M.TimedOut);
    }

    // ---- one step ---------------------------------------------------------------------------

    // `register_ex`, the URLs already parsed and rewritten.
    method RegisterEx(id: ConnId, lan: seq<string>, wan: string)
      requires Valid() && id < |conns|
      modifies `conns
      ensures Valid() && View() == old(View()).(conns := old(conns)[id := old(conns)[id].(urls := lan + [wan])])
    {
      conns := conns[id := conns[id].(urls := lan + [wan])];
    }

    method Handle(port: M.Port, id: ConnId, call: M.Call)
      requires Valid() && id < |conns|
      modifies this, gatherings, gatherings.objects, database
      ensures Valid() && fresh(gatherings.objects - old(gatherings.objects))
      ensures View() == M.Handle(old(View()), port, id, call)
    {
      hide M.CreateGathering, M.JoinGathering, M.LeaveGathering, M.DestroyGathering, M.CloseParticipation,
           M.OpenParticipation, M.ReportStats, M.HandleEndGame, GatheringRegistry.View, GatheringRegistry.Valid;
      match call
      case RegisterEx(lan, wan) => RegisterEx(id, lan, wan);
      case Create(raw) => var gid := CreateGathering(id, raw);
      case Join(params) => var joined := JoinGathering(port, id, params);
      case Leave(params) => var removed := LeaveGathering(port, id, params);
      case Destroy(params) => DestroyGathering(port, id, params);
      case Close(params) => CloseParticipation(params);
      case Open(params) => OpenParticipation(params);
      case Report(params, writeOk) => var reply := ReportStats(port, id, params, writeOk);
      case EndGame(params) => EndGame(id, params);
    }

    // Any step of the machine, taken in place: from the same state the methods reach the state the machine does.
    method Step(s: M.Step)
      requires Valid()
      modifies this, gatherings, gatherings.objects, database
      ensures Valid() && fresh(gatherings.objects - old(gatherings.objects))
      ensures View() == M.Next(old(View()), s)
    {
      hide M.HandleSyn, M.HandleConnect, M.HandleDisconnect, M.ReapAll, M.Handle, M.OnTimeout,
           GatheringRegistry.View, GatheringRegistry.Valid;
      match s
      case Syn(port, remote) => HandleSyn(port, remote);
      case Connect(port, remote, signatureOk, ticket) => HandleConnect(port, remote, signatureOk, ticket);
      case Disconnect(port, remote) => HandleDisconnect(port, remote);
      case Reap(port, stale) => ReapIdle(port, stale);
      case Expire(t) => OnTimeout(t);
      case Request(port, remote, call) =>
        var key := M.Key(port, remote);
        if key in table && table[key] < |conns| && conns[table[key]].established {
          Handle(port, table[key], call);
        }
    }

    // A whole run in place ends where the machine's run ends.
    method RunAll(steps: seq<M.Step>)
      requires Valid()
      modifies this, gatherings, gatherings.objects, database
      ensures Valid() && View() == M.Run(old(View()), steps)
    {
      hide M.Next, GatheringRegistry.View, GatheringRegistry.Valid;
      ghost var start := View();
      for j := 0 to |steps|
        invariant Valid() && fresh(gatherings.objects - old(gatherings.objects))
        invariant M.Run(View(), steps[j..]) == M.Run(start, steps)
      {
        assert steps[j..][0] == steps[j] && steps[j..][1..] == steps[j + 1..];
        Step(steps[j]);
      }
    }
  }
}
