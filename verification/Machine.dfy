/**
  The lobby server as a step machine. A `World` is everything the single-threaded
  handlers share: the connection tables of both ports, the registry, the
  transaction ids, the pending batch timers, the stats store, and a ghost-like
  `log` of what has happened, pushes included. `Next` is one step: one packet or
  request handled, one close, or one timer expiring.
*/
module Machine {
  import opened Options
  import opened Bytes
  import opened Lobbies
  import SparkStats
  import Career
  import Floats

  datatype Port = Auth | Secure

  datatype Key = Key(port: Port, remote: Remote)

  // A connection object, as far as lobbies care. Replaced objects stay referenced by lobbies.
  datatype Conn = Conn(port: Port, remote: Remote, established: bool, userPid: Pid, urls: seq<string>)

  datatype Timer = Timer(gid: Gid, port: Port)

  // The server-initiated requests: NAT probes (proto 3) and notification events (proto 14).
  datatype Push =
    | Probe(url: string)
    | Insert(gid: Gid, subject: Pid)      // type 900002
    | Erase(gid: Gid, subject: Pid)       // type 900000
    | Stats(gid: Gid, recipient: Pid, txn: nat, cash: Word)  // type 901001

  datatype Reason = AllReported | TimedOut

  datatype Event =
    | Created(gid: Gid, pid: Pid)
    | Joined(gid: Gid, pid: Pid)
    | Left(gid: Gid, pid: Pid)
    | Closed(remote: Remote, dropped: map<Gid, set<Pid>>)  // who a close removed, lobby by lobby
    | Sent(port: Port, to: Remote, push: Push)
    | Snapshot(gid: Gid, pids: set<Pid>)
    | Reported(gid: Gid, pid: Pid)
    | Armed(timer: TimerId, gid: Gid)
    | Fired(gid: Gid, reason: Reason, reported: set<Pid>)
    | Cancelled(gid: Gid)
    | Saved(pid: Pid, vec0: seq<Word>)
    | Replied(pid: Pid, txn: nat)
    | Burned(pid: Pid, txn: nat)          // a txn id consumed by a request that then raised

  datatype World = World(
    table: map<Key, ConnId>, conns: seq<Conn>, reg: Registry, txns: map<Pid, nat>,
    timers: map<TimerId, Timer>, nextTimer: TimerId, db: Career.Store, log: seq<Event>)

  const START: World := World(map[], [], EMPTY, map[], map[], 0, Career.Store(map[], map[]), [])

  datatype Call =
    | RegisterEx(lan: seq<string>, wan: string)
    | Create(raw: seq<Byte>)
    | Join(params: seq<Byte>)
    | Leave(params: seq<Byte>)
    | Destroy(params: seq<Byte>)
    | Close(params: seq<Byte>)
    | Open(params: seq<Byte>)
    | Report(params: seq<Byte>, writeOk: bool)
    | EndGame(params: seq<Byte>)

  datatype Step =
    | Syn(port: Port, remote: Remote)
    | Connect(port: Port, remote: Remote, signatureOk: bool, ticket: Option<Pid>)  // the pid of a ticket that verified
    | Disconnect(port: Port, remote: Remote)
    | Reap(port: Port, stale: seq<Remote>)
    | Request(port: Port, remote: Remote, call: Call)
    | Expire(timer: TimerId)

  // ---- reads -------------------------------------------------------------------

  function Established(w: World, port: Port, remote: Remote): Option<ConnId> {
    if Key(port, remote) in w.table && w.table[Key(port, remote)] < |w.conns|
       && w.conns[w.table[Key(port, remote)]].established
    then Some(w.table[Key(port, remote)]) else None
  }

  function Urls(w: World, conn: Option<ConnId>): seq<string> {
    if conn.Some? && conn.value < |w.conns| then w.conns[conn.value].urls else []
  }

  function TxnOf(txns: map<Pid, nat>, pid: Pid): nat { if pid in txns then txns[pid] else 0 }

  // The gathering id at the head of a request, 0 when it is too short; no lobby has id 0.
  function GidOf(params: seq<Byte>): Gid { if |params| >= 4 then U32(params, 0) else 0 }

  // ---- pushes (protocols/notification.py) -----------------------------------------

  // `_broadcast`: everyone but the subject, each through the live connection at its remote.
  function Broadcast(table: map<Key, ConnId>, port: Port, ps: seq<Participant>, subject: Pid, push: Push): seq<Event> {
    if ps == [] then []
    else
      var n := |ps| - 1;
      var before := Broadcast(table, port, ps[..n], subject, push);
      if ps[n].pid != subject && Key(port, ps[n].remote) in table
      then before + [Sent(port, ps[n].remote, push)] else before
  }

  // `push_participants_to_joiner`: one insert per participant, the joiner included.
  function Backfill(port: Port, to: Remote, gid: Gid, ps: seq<Participant>): seq<Event> {
    seq(|ps|, i requires 0 <= i < |ps| => Sent(port, to, Insert(gid, ps[i].pid)))
  }

  function Probes(port: Port, to: Remote, urls: seq<string>): seq<Event> {
    seq(|urls|, i requires 0 <= i < |urls| => Sent(port, to, Probe(urls[i])))
  }

  // `push_stats_processed`: every reachable participant its own transaction id and cash.
  function StatsPushes(table: map<Key, ConnId>, txns: map<Pid, nat>, db: Career.Store,
                       port: Port, gid: Gid, ps: seq<Participant>): seq<Event> {
    if ps == [] then []
    else
      var n := |ps| - 1;
      var before := StatsPushes(table, txns, db, port, gid, ps[..n]);
      if Key(port, ps[n].remote) in table
      then before + [Sent(port, ps[n].remote,
                          Stats(gid, ps[n].pid, TxnOf(txns, ps[n].pid), Career.CareerCash(db, ps[n].pid)))]
      else before
  }

  // ---- transport steps (prudp/server.py) --------------------------------------------

  function HandleSyn(w: World, port: Port, remote: Remote): World {
    w.(table := w.table[Key(port, remote) := |w.conns|], conns := w.conns + [Conn(port, remote, false, 0, [])])
  }

  function HandleConnect(w: World, port: Port, remote: Remote, signatureOk: bool, ticket: Option<Pid>): World {
    if Key(port, remote) !in w.table || w.table[Key(port, remote)] >= |w.conns| || !signatureOk then w
    else
      var id := w.table[Key(port, remote)];
      var c := w.conns[id];
      if c.established then w
      else w.(conns := w.conns[id := c.(established := true,
                                        userPid := if port == Secure && ticket.Some? then ticket.value else c.userPid)])
  }

  function PidsAt(ps: seq<Participant>, remote: Remote): set<Pid> { set p | p in ps && p.remote == remote :: p.pid }

  // Whom the close hooks of `remote` drop from lobbies that survive them.
  function DroppedBy(r: Registry, remote: Remote): map<Gid, set<Pid>> {
    map g | g in r.byId && r.byId[g].ownerRemote != remote :: PidsAt(r.byId[g].participants, remote)
  }

  function HandleDisconnect(w: World, port: Port, remote: Remote): World {
    w.(reg := CloseRemote(w.reg, remote), table := w.table - {Key(port, remote)},
       log := w.log + [Closed(remote, DroppedBy(w.reg, remote))])
  }

  function ReapAll(w: World, port: Port, stale: seq<Remote>): World
    decreases stale
  {
    if stale == [] then w else ReapAll(HandleDisconnect(w, port, stale[0]), port, stale[1..])
  }

  // ---- lobby requests (protocols/game.py, protocols/matchmaking.py) -------------------

  function CreateGathering(w: World, id: ConnId, c: Conn, raw: seq<Byte>): World {
    w.(reg := Lobbies.Create(w.reg, c.userPid, c.remote, raw, Some(id)),
       log := w.log + [Created(w.reg.nextId, c.userPid)])
  }

  // The guards of `join_gathering`, in order; anything else is a SessionVoid reply.
  predicate Admits(w: World, l: Lobby, pid: Pid) {
    Urls(w, l.hostConn) != [] && !IsFull(l) && (pid in l.invited || PublicRemaining(l) > 0)
  }

  // What an admitted join sends, in order: NAT probes to the host, the joiner to everybody else,
  // everybody to the joiner.
  function JoinEvents(table: map<Key, ConnId>, port: Port, hostRemote: Remote, c: Conn, gid: Gid,
                      ps: seq<Participant>): seq<Event> {
    var to := EntryRemote(ps, c.userPid, c.remote);
    [Joined(gid, c.userPid)] + Probes(port, hostRemote, c.urls)
    + Broadcast(table, port, ps, c.userPid, Insert(gid, c.userPid))
    + (if Key(port, to) in table then Backfill(port, to, gid, ps) else [])
  }

  function JoinGathering(w: World, port: Port, id: ConnId, c: Conn, params: seq<Byte>): World {
    var gid := GidOf(params);
    if |params| < 4 || gid !in w.reg.byId || !Admits(w, w.reg.byId[gid], c.userPid) then w
    else
      var host := w.reg.byId[gid].hostConn.value;
      var reg := AddParticipant(w.reg, gid, Participant(c.userPid, c.remote, Some(id)));
      w.(reg := reg,
         log := w.log + JoinEvents(w.table, port, w.conns[host].remote, c, gid, reg.byId[gid].participants))
  }

  // The remote of the list entry of `pid`: the one it first joined from.
  function EntryRemote(ps: seq<Participant>, pid: Pid, otherwise: Remote): Remote {
    match Find(ps, pid) case Some(k) => ps[k].remote case None => otherwise
  }

  function LeaveEvents(table: map<Key, ConnId>, port: Port, gid: Gid, pid: Pid, rest: seq<Participant>): seq<Event> {
    [Left(gid, pid)] + Broadcast(table, port, rest, pid, Erase(gid, pid))
  }

  function LeaveGathering(w: World, port: Port, c: Conn, params: seq<Byte>): World {
    var gid := GidOf(params);
    if gid !in w.reg.byId then w
    else
      var ps := w.reg.byId[gid].participants;
      var rest := Without(ps, ByPid(c.userPid));
      if |rest| == |ps| then w
      else w.(reg := RemoveParticipant(w.reg, gid, c.userPid),
              log := w.log + LeaveEvents(w.table, port, gid, c.userPid, rest))
  }

  function DestroyGathering(w: World, port: Port, c: Conn, params: seq<Byte>): World {
    var gid := GidOf(params);
    if gid !in w.reg.byId || w.reg.byId[gid].ownerPid != c.userPid then w
    else w.(log := w.log + Broadcast(w.table, port, w.reg.byId[gid].participants, c.userPid, Erase(gid, c.userPid)),
            reg := Lobbies.Destroy(w.reg, gid))
  }

  // ---- the end-of-match batch ------------------------------------------------------------

  // Take the snapshot if there is none.
  function Seeded(w: World, gid: Gid): World
    requires gid in w.reg.byId
  {
    var l := w.reg.byId[gid];
    if l.expected != {} then w
    else w.(reg := Put(w.reg, gid, l.(expected := Pids(l.participants), received := {})),
            log := w.log + [Snapshot(gid, Pids(l.participants))])
  }

  function CloseParticipation(w: World, params: seq<Byte>): World {
    var gid := GidOf(params);
    if gid !in w.reg.byId then w else Seeded(w.(reg := SetClosed(w.reg, gid, true)), gid)
  }

  function OpenParticipation(w: World, params: seq<Byte>): World {
    w.(reg := SetClosed(w.reg, GidOf(params), false))
  }

  function Unarmed(timers: map<TimerId, Timer>, handle: Option<TimerId>): map<TimerId, Timer> {
    if handle.Some? then timers - {handle.value} else timers
  }

  function ClearBatch(l: Lobby): Lobby { l.(expected := {}, received := {}, timer := None) }

  // `_fire_stats_processed_batch`
  function Fire(w: World, port: Port, gid: Gid, reason: Reason): World
    requires gid in w.reg.byId
  {
    var l := w.reg.byId[gid];
    var timers := Unarmed(w.timers, l.timer);
    if l.received == {} then w.(timers := timers, reg := Put(w.reg, gid, l.(timer := None)))
    else w.(timers := timers, reg := Put(w.reg, gid, ClearBatch(l)),
            log := w.log + [Fired(gid, reason, l.received)]
                + StatsPushes(w.table, w.txns, w.db, port, gid, l.participants))
  }

  // `_cancel_m12_batch`
  function CancelBatch(w: World, gid: Gid): World
    requires gid in w.reg.byId
  {
    var l := w.reg.byId[gid];
    w.(timers := Unarmed(w.timers, l.timer), reg := Put(w.reg, gid, ClearBatch(l)), log := w.log + [Cancelled(gid)])
  }

  // Start the 30 s timer of a batch.
  function Arm(w: World, port: Port, gid: Gid): World
    requires gid in w.reg.byId
  {
    w.(reg := Put(w.reg, gid, w.reg.byId[gid].(timer := Some(w.nextTimer))),
       timers := w.timers[w.nextTimer := Timer(gid, port)], nextTimer := w.nextTimer + 1,
       log := w.log + [Armed(w.nextTimer, gid)])
  }

  // Record a report in a seeded batch, then fire it or make sure its timer runs.
  function Record(w: World, port: Port, gid: Gid, pid: Pid): World
    requires gid in w.reg.byId
  {
    var l := w.reg.byId[gid].(received := w.reg.byId[gid].received + {pid});
    var w' := w.(reg := Put(w.reg, gid, l), log := w.log + [Reported(gid, pid)]);
    if l.expected <= l.received then Fire(w', port, gid, AllReported)
    else if l.timer.None? then Arm(w', port, gid)
    else w'
  }

  // One report attributed to a lobby.
  function Attribute(w: World, port: Port, gid: Gid, pid: Pid): World
    requires gid in w.reg.byId
  {
    Record(Seeded(w, gid), port, gid, pid)
  }

  // The slots of an upload that the handler's log line converts with `int(...)`.
  predicate Loggable(v0: seq<Word>) {
    forall i | i in {14, 58, 59, 84} :: i < |v0| ==> Floats.Finite(v0[i])
  }

  // The part of `lifecycle_stub` that stores the upload; None where it raises before consuming a txn id.
  function Stored(w: World, pid: Pid, v0: seq<Word>, v1: seq<Word>, writeOk: bool): Option<World> {
    if v0 == [] then Some(w)
    else match Career.ComputeRows(v0, v1)
      case None => None
      case Some(rows) =>
        var saved := writeOk && Career.Storable(rows);
        Some(w.(db := Career.PersistMatch(w.db, pid, v0, rows, writeOk),
                log := if saved then w.log + [Saved(pid, v0)] else w.log))
  }

  // m=12 ReportStats with parameters.
  function ReportStats(w: World, port: Port, c: Conn, params: seq<Byte>, writeOk: bool): World {
    if params == [] then w
    else
      var pid := c.userPid;
      var found := SparkStats.SenderEntry(params, pid);
      var v0 := if found.Some? then found.value.vec0 else [];
      var v1 := if found.Some? then found.value.vec1 else [];
      match Stored(w, pid, v0, v1, writeOk)
      case None => w
      case Some(w1) => Counted(w1, port, pid, v0)
  }

  // The rest of ReportStats: consume the txn id, attribute the report, reply.
  function Counted(w: World, port: Port, pid: Pid, v0: seq<Word>): World {
    var txn := TxnOf(w.txns, pid) + 1;
    var w1 := w.(txns := w.txns[pid := txn]);
    if !Loggable(v0) then w1.(log := w1.log + [Burned(pid, txn)])
    else
      var w2 := Attributed(w1, port, pid);
      w2.(log := w2.log + [Replied(pid, txn)])
  }

  // The report goes to the first lobby, in registry order, that has the player, if there is one.
  function Attributed(w: World, port: Port, pid: Pid): World {
    match FirstWith(w.reg, w.reg.order, pid)
    case Some(gid) => Attribute(w, port, gid, pid)
    case None => w
  }

  // m=15 EndGame: the named lobby, or else the caller's own.
  function EndGameTarget(w: World, gid: Gid, pid: Pid): Option<Gid> {
    if gid in w.reg.byId then Some(gid) else FirstWith(w.reg, w.reg.order, pid)
  }

  function HandleEndGame(w: World, c: Conn, params: seq<Byte>): World {
    var target := EndGameTarget(w, GidOf(params), c.userPid);
    if target.Some? && (w.reg.byId[target.value].timer.Some? || w.reg.byId[target.value].expected != {})
    then CancelBatch(w, target.value) else w
  }

  // `_on_m12_timeout`, run when a pending timer expires.
  function OnTimeout(w: World, t: TimerId): World {
    if t !in w.timers then w
    else
      var Timer(gid, port) := w.timers[t];
      var w1 := w.(timers := w.timers - {t});
      if gid !in w1.reg.byId then w1
      else
        var l := w1.reg.byId[gid];
        if l.received == {} || l.expected <= l.received
        then w1.(reg := Put(w1.reg, gid, l.(timer := None)))
        else Fire(w1, port, gid, TimedOut)
  }

  // ---- one step -------------------------------------------------------------------------

  function Handle(w: World, port: Port, id: ConnId, call: Call): World
    requires id < |w.conns|
  {
    var c := w.conns[id];
    match call
    case RegisterEx(lan, wan) => w.(conns := w.conns[id := c.(urls := lan + [wan])])
    case Create(raw) => CreateGathering(w, id, c, raw)
    case Join(params) => JoinGathering(w, port, id, c, params)
    case Leave(params) => LeaveGathering(w, port, c, params)
    case Destroy(params) => DestroyGathering(w, port, c, params)
    case Close(params) => CloseParticipation(w, params)
    case Open(params) => OpenParticipation(w, params)
    case Report(params, writeOk) => ReportStats(w, port, c, params, writeOk)
    case EndGame(params) => HandleEndGame(w, c, params)
  }

  function Next(w: World, s: Step): World {
    match s
    case Syn(port, remote) => HandleSyn(w, port, remote)
    case Connect(port, remote, signatureOk, ticket) => HandleConnect(w, port, remote, signatureOk, ticket)
    case Disconnect(port, remote) => HandleDisconnect(w, port, remote)
    case Reap(port, stale) => ReapAll(w, port, stale)
    case Request(port, remote, call) =>
      (match Established(w, port, remote)
       case None => w
       case Some(id) => Handle(w, port, id, call))
    case Expire(t) => OnTimeout(w, t)
  }

  // The world after a run of steps.
  function Run(w: World, steps: seq<Step>): World
    decreases steps
  {
    if steps == [] then w else Run(Next(w, steps[0]), steps[1..])
  }

  lemma RunFirst(w: World, s: Step, rest: seq<Step>)
    ensures Run(w, [s] + rest) == Run(Next(w, s), rest)
  {
    assert ([s] + rest)[1..] == rest;
  }

  lemma RunNone(w: World)
    ensures Run(w, []) == w
  {
  }

  lemma {:induction false} RunSnoc(w: World, steps: seq<Step>, s: Step)
    ensures Run(w, steps + [s]) == Next(Run(w, steps), s)
    decreases steps
  {
    hide Next;
    if steps == [] {
      assert [s][1..] == [];
      RunNone(Next(w, s));
    } else {
      assert (steps + [s])[1..] == steps[1..] + [s];
      RunSnoc(Next(w, steps[0]), steps[1..], s);
    }
  }
}
