/**
  What each lobby request does, read off the state before and after it and the
  pushes it sends. Every reachable state satisfies the invariant these
  statements start from.
*/
module Requests {
  import opened Options
  import opened Bytes
  import opened Numbers
  import opened SparkGame
  import opened Lobbies
  import opened Machine
  import opened Invariants

  // The request comes over an established connection.
  predicate Calls(w: World, port: Port, remote: Remote, id: ConnId) {
    Key(port, remote) in w.table && w.table[Key(port, remote)] == id && id < |w.conns| && w.conns[id].established
  }

  // The four bytes at the head of a request name lobby `g`; anything may follow.
  predicate Names(params: seq<Byte>, g: Gid) { |params| >= 4 && U32(params, 0) == g }

  // Nothing but lobby `g` is different in the registry.
  ghost predicate OnlyLobby(w: World, w': World, g: Gid) {
    g in w.reg.byId && g in w'.reg.byId && w'.reg == w.reg.(byId := w.reg.byId[g := w'.reg.byId[g]])
  }

  // A request over no established connection does nothing.
  lemma StrangersDoNothing(w: World, port: Port, remote: Remote, call: Call)
    requires forall id :: !Calls(w, port, remote, id)
    ensures Next(w, Request(port, remote, call)) == w
  {
    if Key(port, remote) in w.table {
      assert !Calls(w, port, remote, w.table[Key(port, remote)]);
    }
  }

  // A SYN gives the remote a new connection, nobody's, in place of whatever it had.
  lemma SynStartsAnew(w: World, port: Port, remote: Remote)
    ensures var w' := Next(w, Syn(port, remote));
            && w' == w.(table := w'.table, conns := w'.conns)
            && |w'.conns| == |w.conns| + 1 && w'.conns[|w.conns|] == Conn(port, remote, false, 0, [])
            && (forall i | 0 <= i < |w.conns| :: w'.conns[i] == w.conns[i])
            && w'.table.Keys == w.table.Keys + {Key(port, remote)}
            && (forall k | k in w'.table :: w'.table[k] == if k == Key(port, remote) then |w.conns| else w.table[k])
  {
  }

  // A CONNECT with the right signature establishes a connection once; on the secure port a verified ticket says
  // whose it is. No other step but RegisterEx changes a connection.
  lemma ConnectIdentifies(w: World, port: Port, remote: Remote, signatureOk: bool, ticket: Option<Pid>)
    ensures var w' := Next(w, Connect(port, remote, signatureOk, ticket));
            && w' == w.(conns := w'.conns) && |w'.conns| == |w.conns|
            && forall i | 0 <= i < |w.conns| ::
                 if Key(port, remote) in w.table && w.table[Key(port, remote)] == i && signatureOk
                    && !w.conns[i].established then
                   w'.conns[i] == w.conns[i].(established := true,
                                              userPid := if port == Secure && ticket.Some? then ticket.value
                                                         else w.conns[i].userPid)
                 else w'.conns[i] == w.conns[i]
  {
  }

  // When a remote goes away: the lobbies it owned are gone, it is on no other list, nobody else's place changes,
  // and its connection of that port is forgotten. Nobody is told.
  lemma DisconnectDrops(w: World, port: Port, remote: Remote)
    requires Inv(w)
    ensures var w' := Next(w, Disconnect(port, remote));
            && w' == w.(reg := w'.reg, table := w.table - {Key(port, remote)}, log := w'.log)
            && |w'.log| == |w.log| + 1 && w'.log[..|w.log|] == w.log && w'.log[|w.log|].Closed?
            && (forall g :: g in w'.reg.byId <==> g in w.reg.byId && w.reg.byId[g].ownerRemote != remote)
            && (forall g | g in w'.reg.byId ::
                  && w'.reg.byId[g] == w.reg.byId[g].(participants := w'.reg.byId[g].participants)
                  && forall p :: p in w'.reg.byId[g].participants
                                 <==> p in w.reg.byId[g].participants && p.remote != remote)
            && Consistent(w'.reg) && w'.reg.nextId == w.reg.nextId
  {
    hide CloseRemote, DroppedBy, Consistent, TimersOk, TableOk, HostsOk, LobbiesOk;
    CloseConsistent(w.reg, remote);
  }

  // Reaping is one disconnect after the other.
  lemma {:induction false} ReapDisconnects(w: World, port: Port, stale: seq<Remote>)
    ensures Next(w, Reap(port, stale))
         == Run(w, seq(|stale|, i requires 0 <= i < |stale| => Disconnect(port, stale[i])))
    decreases stale
  {
    hide HandleDisconnect;
    var steps := seq(|stale|, i requires 0 <= i < |stale| => Disconnect(port, stale[i]));
    if stale != [] {
      ReapDisconnects(HandleDisconnect(w, port, stale[0]), port, stale[1..]);
      assert steps[1..] == seq(|stale[1..]|, i requires 0 <= i < |stale[1..]| => Disconnect(port, stale[1..][i]));
    }
  }

  // ---- who is pushed to ------------------------------------------------------------------------

  // The places `at` are, in order, those of the participants other than `subject` whose remote is up on the port,
  // and each of these is sent the push once.
  ghost predicate Reaches(es: seq<Event>, table: map<Key, ConnId>, port: Port, ps: seq<Participant>, subject: Pid,
                          push: Push, at: seq<nat>) {
    && Rising(at) && |es| == |at|
    && (forall q | 0 <= q < |at| :: at[q] < |ps| && es[q] == Sent(port, ps[at[q]].remote, push))
    && (forall i | 0 <= i < |ps| :: i in at <==> ps[i].pid != subject && Key(port, ps[i].remote) in table)
  }

  lemma ReachesSnoc(es: seq<Event>, table: map<Key, ConnId>, port: Port, ps: seq<Participant>, p: Participant,
                    subject: Pid, push: Push, at: seq<nat>)
    requires Reaches(es, table, port, ps, subject, push, at)
    ensures if p.pid != subject && Key(port, p.remote) in table
            then Reaches(es + [Sent(port, p.remote, push)], table, port, ps + [p], subject, push, at + [|ps|])
            else Reaches(es, table, port, ps + [p], subject, push, at)
  {
    hide Rising;
    var all := ps + [p];
    if p.pid != subject && Key(port, p.remote) in table {
      RisingSnoc(at, |ps|);
      forall i | 0 <= i < |all| ensures i in at + [|ps|]
          <==> all[i].pid != subject && Key(port, all[i].remote) in table {
        InSnoc(at, |ps|, i);
      }
    }
  }

  lemma {:induction false} BroadcastReaches(table: map<Key, ConnId>, port: Port, ps: seq<Participant>, subject: Pid,
                                            push: Push) returns (at: seq<nat>)
    ensures Reaches(Broadcast(table, port, ps, subject, push), table, port, ps, subject, push, at)
  {
    at := [];
    if ps != [] {
      hide Reaches;
      var n := |ps| - 1;
      at := BroadcastReaches(table, port, ps[..n], subject, push);
      assert ps == ps[..n] + [ps[n]];
      ReachesSnoc(Broadcast(table, port, ps[..n], subject, push), table, port, ps[..n], ps[n], subject, push, at);
      if ps[n].pid != subject && Key(port, ps[n].remote) in table {
        at := at + [n];
      }
    }
  }

  // `r` is what is left of `ps` without the entries of `pid`, order kept.
  ghost predicate Leaves(r: seq<Participant>, ps: seq<Participant>, pid: Pid, at: seq<nat>) {
    && Rising(at) && |r| == |at|
    && (forall q | 0 <= q < |at| :: at[q] < |ps| && r[q] == ps[at[q]])
    && (forall i | 0 <= i < |ps| :: i in at <==> ps[i].pid != pid)
  }

  lemma LeavesSnoc(r: seq<Participant>, ps: seq<Participant>, p: Participant, pid: Pid, at: seq<nat>)
    requires Leaves(r, ps, pid, at)
    ensures if p.pid != pid then Leaves(r + [p], ps + [p], pid, at + [|ps|]) else Leaves(r, ps + [p], pid, at)
  {
    hide Rising;
    var all := ps + [p];
    if p.pid != pid {
      RisingSnoc(at, |ps|);
      forall i | 0 <= i < |all| ensures i in at + [|ps|] <==> all[i].pid != pid {
        InSnoc(at, |ps|, i);
      }
    }
  }

  lemma {:induction false} WithoutLeaves(ps: seq<Participant>, pid: Pid) returns (at: seq<nat>)
    ensures Leaves(Without(ps, ByPid(pid)), ps, pid, at)
  {
    at := [];
    if ps != [] {
      hide Leaves;
      var n := |ps| - 1;
      at := WithoutLeaves(ps[..n], pid);
      assert ps == ps[..n] + [ps[n]];
      LeavesSnoc(Without(ps[..n], ByPid(pid)), ps[..n], ps[n], pid, at);
      if ps[n].pid != pid {
        at := at + [n];
      }
    }
  }

  // ---- registering -------------------------------------------------------------------------------

  // The caller's URLs become the LAN ones followed by the WAN one; nothing else changes.
  lemma RegisterKeepsOrder(w: World, port: Port, remote: Remote, id: ConnId, lan: seq<string>, wan: string)
    requires Calls(w, port, remote, id)
    ensures var w' := Next(w, Request(port, remote, RegisterEx(lan, wan)));
            && |w'.conns| == |w.conns| && w' == w.(conns := w'.conns)
            && w'.conns[id] == w.conns[id].(urls := w'.conns[id].urls)
            && |w'.conns[id].urls| == |lan| + 1 && w'.conns[id].urls[|lan|] == wan
            && (forall q | 0 <= q < |lan| :: w'.conns[id].urls[q] == lan[q])
            && (forall i | 0 <= i < |w.conns| && i != id :: w'.conns[i] == w.conns[i])
  {
  }

  // ---- creating and destroying -----------------------------------------------------------------

  // The caller's lobbies go and a new one, open and with the caller alone in it, gets the next id.
  lemma CreateReplaces(w: World, port: Port, remote: Remote, id: ConnId, raw: seq<Byte>)
    requires Inv(w) && Calls(w, port, remote, id)
    ensures var w' := Next(w, Request(port, remote, Create(raw))); var c, g := w.conns[id], w.reg.nextId;
            && w' == w.(reg := w'.reg, log := w.log + [Created(g, c.userPid)])
            && (forall h :: h in w'.reg.byId <==> h == g || (h in w.reg.byId && w.reg.byId[h].ownerPid != c.userPid))
            && (forall h | h in w'.reg.byId && h != g :: w'.reg.byId[h] == w.reg.byId[h])
            && w'.reg.byId[g] == Lobby(g, c.userPid, c.remote, raw, Some(id),
                                       [Participant(c.userPid, c.remote, Some(id))], {}, false, {}, {}, None)
            && (forall p :: p in w'.reg.owners <==> p in w.reg.owners || p == c.userPid)
            && (forall p | p in w'.reg.owners :: w'.reg.owners[p] == if p == c.userPid then g else w.reg.owners[p])
            && Consistent(w'.reg) && w'.reg.nextId == g + 1
  {
    hide Restrict, Ascending, TimersOk, LobbiesOk, HostsOk, TableOk;
    CreateConsistent(w.reg, w.conns[id].userPid, w.conns[id].remote, raw, Some(id));
  }

  lemma DestroyedRegistry(r: Registry, g: Gid)
    requires Consistent(r) && g in r.byId
    ensures var d := Lobbies.Destroy(r, g);
            && d.byId == r.byId - {g} && d.owners == r.owners - {r.byId[g].ownerPid} && d.nextId == r.nextId
            && Consistent(d)
  {
    hide Restrict, Ascending;
    DestroyConsistent(r, g);
  }

  // The owner's call tells everybody else who can be reached and then removes the lobby; nobody else's does anything.
  lemma DestroyTellsEverybody(w: World, port: Port, remote: Remote, id: ConnId, params: seq<Byte>)
    returns (es: seq<Event>, at: seq<nat>)
    requires Inv(w) && Calls(w, port, remote, id)
    ensures var w' := Next(w, Request(port, remote, Destroy(params))); var pid := w.conns[id].userPid;
            && (forall g | Names(params, g) && g in w.reg.byId && w.reg.byId[g].ownerPid == pid ::
                  && w' == w.(reg := w'.reg, log := w.log + es)
                  && Reaches(es, w.table, port, w.reg.byId[g].participants, pid, Erase(g, pid), at)
                  && w'.reg.byId == w.reg.byId - {g} && w'.reg.owners == w.reg.owners - {pid}
                  && w'.reg.nextId == w.reg.nextId && Consistent(w'.reg))
            && ((forall g :: !(Names(params, g) && g in w.reg.byId && w.reg.byId[g].ownerPid == pid)) ==> w' == w)
  {
    hide Restrict, Ascending, TimersOk, LobbiesOk, HostsOk, TableOk, Broadcast, Reaches, U32, Lobbies.Destroy;
    var pid := w.conns[id].userPid;
    es, at := [], [];
    if |params| >= 4 && U32(params, 0) in w.reg.byId && w.reg.byId[U32(params, 0)].ownerPid == pid {
      var g: Gid := U32(params, 0);
      assert Names(params, g);
      es := Broadcast(w.table, port, w.reg.byId[g].participants, pid, Erase(g, pid));
      at := BroadcastReaches(w.table, port, w.reg.byId[g].participants, pid, Erase(g, pid));
      DestroyedRegistry(w.reg, g);
    } else {
      assert GidOf(params) !in w.reg.byId || w.reg.byId[GidOf(params)].ownerPid != pid;
    }
  }

  // ---- joining and leaving --------------------------------------------------------------------

  // The public slots a host offers: a word of its settings, which follow its display name.
  function SlotsOffered(raw: seq<Byte>): nat {
    if |raw| >= 0x36 && 0x36 + U16(raw, 0x34) + 0x40 <= |raw| then U32(raw, 0x36 + U16(raw, 0x34) + 0x0d) else 3
  }

  function Uninvited(l: Lobby): set<Pid> {
    set p | p in l.participants && p.pid != l.ownerPid && p.pid !in l.invited :: p.pid
  }

  // The host can be reached, a seat of four is left, and the caller is invited or finds a public slot. A closed
  // lobby can be joined.
  predicate MayJoin(w: World, l: Lobby, pid: Pid) {
    && l.hostConn.Some? && l.hostConn.value < |w.conns| && w.conns[l.hostConn.value].urls != []
    && |l.participants| < 4
    && (pid in l.invited || |Uninvited(l)| < SlotsOffered(l.raw))
  }

  lemma SlotsAreOffered(raw: seq<Byte>)
    ensures PublicSlots(raw) == SlotsOffered(raw)
  {
    if Readable(raw) {
      var start := SettingsStart(raw);
      var s := raw[start..start + SETTINGS_SIZE];
      var at := PUBLIC_SLOTS_OFFSET;
      assert s[at..at + 4] == raw[start + at..start + at + 4] by { hide U32, U16; }
      U32Local(s, at, raw, start + at);
    }
  }

  lemma {:induction false} JoinersAreUninvited(ps: seq<Participant>, owner: Pid, invited: set<Pid>)
    requires Distinct(ps)
    ensures Joiners(ps, owner, invited) == |set p | p in ps && p.pid != owner && p.pid !in invited :: p.pid|
  {
    var all := set p | p in ps && p.pid != owner && p.pid !in invited :: p.pid;
    if ps != [] {
      var n := |ps| - 1;
      var before := set p | p in ps[..n] && p.pid != owner && p.pid !in invited :: p.pid;
      assert ps == ps[..n] + [ps[n]];
      assert Distinct(ps[..n]);
      JoinersAreUninvited(ps[..n], owner, invited);
      assert all == before + if ps[n].pid != owner && ps[n].pid !in invited then {ps[n].pid} else {};
    }
  }

  lemma MayJoinAdmits(w: World, l: Lobby, pid: Pid)
    requires LobbyOk(l)
    ensures Admits(w, l, pid) <==> MayJoin(w, l, pid)
  {
    hide Joiners, PublicSlots, SlotsOffered;
    SlotsAreOffered(l.raw);
    JoinersAreUninvited(l.participants, l.ownerPid, l.invited);
  }

  // The list after a join: an entry of the caller has its connection refreshed, a new one goes to the end.
  predicate Joins(ps': seq<Participant>, ps: seq<Participant>, p: Participant) {
    if p.pid !in Pids(ps) then ps' == ps + [p]
    else
      && |ps'| == |ps|
      && forall k | 0 <= k < |ps| :: ps'[k] == if ps[k].pid == p.pid then ps[k].(conn := p.conn) else ps[k]
  }

  lemma AdmitJoins(ps: seq<Participant>, p: Participant)
    requires Distinct(ps) && p.conn.Some?
    ensures Joins(Admit(ps, p), ps, p)
  {
  }

  // What an admitted caller sets off, in this order: its URLs as probes to the host, itself to everybody else who
  // can be reached, everybody to its own entry's remote.
  datatype Sends = Sends(probes: seq<Event>, inserts: seq<Event>, backfill: seq<Event>, at: seq<nat>)

  ghost predicate Welcomes(w: World, port: Port, c: Conn, g: Gid, host: Remote, ps: seq<Participant>, s: Sends) {
    && |s.probes| == |c.urls|
    && (forall q | 0 <= q < |c.urls| :: s.probes[q] == Sent(port, host, Probe(c.urls[q])))
    && Reaches(s.inserts, w.table, port, ps, c.userPid, Insert(g, c.userPid), s.at)
    && (forall k | 0 <= k < |ps| && ps[k].pid == c.userPid ::
          if Key(port, ps[k].remote) in w.table then
            |s.backfill| == |ps|
                && forall q | 0 <= q < |ps| :: s.backfill[q] == Sent(port, ps[k].remote, Insert(g, ps[q].pid))
          else s.backfill == [])
  }

  lemma JoinWelcomes(w: World, port: Port, c: Conn, g: Gid, host: Remote, ps: seq<Participant>) returns (s: Sends)
    requires Distinct(ps) && c.userPid in Pids(ps)
    ensures Welcomes(w, port, c, g, host, ps, s)
    ensures JoinEvents(w.table, port, host, c, g, ps) == [Joined(g, c.userPid)] + s.probes + s.inserts + s.backfill
  {
    hide Broadcast;
    var to := EntryRemote(ps, c.userPid, c.remote);
    var at := BroadcastReaches(w.table, port, ps, c.userPid, Insert(g, c.userPid));
    s := Sends(Probes(port, host, c.urls), Broadcast(w.table, port, ps, c.userPid, Insert(g, c.userPid)),
               if Key(port, to) in w.table then Backfill(port, to, g, ps) else [], at);
    assert forall k | 0 <= k < |ps| && ps[k].pid == c.userPid :: ps[k].remote == to;
  }

  // A join of a live lobby by a caller who may: the list grows by the caller, everybody is told. Any other join
  // changes nothing.
  lemma JoinAddsCaller(w: World, port: Port, remote: Remote, id: ConnId, params: seq<Byte>) returns (s: Sends)
    requires Inv(w) && Calls(w, port, remote, id)
    ensures var w' := Next(w, Request(port, remote, Join(params))); var c := w.conns[id];
            && (forall g | Names(params, g) && g in w.reg.byId && MayJoin(w, w.reg.byId[g], c.userPid) ::
                  && OnlyLobby(w, w', g)
                  && var l, l' := w.reg.byId[g], w'.reg.byId[g];
                     && l' == l.(participants := l'.participants)
                     && Joins(l'.participants, l.participants, Participant(c.userPid, c.remote, Some(id)))
                     && Welcomes(w, port, c, g, w.conns[l.hostConn.value].remote, l'.participants, s)
                     && w' == w.(reg := w'.reg,
                                 log := w.log + [Joined(g, c.userPid)] + s.probes + s.inserts + s.backfill))
            && ((forall g :: !(Names(params, g) && g in w.reg.byId && MayJoin(w, w.reg.byId[g], c.userPid)))
                ==> w' == w)
  {
    hide TimersOk, TableOk, Admits, MayJoin, JoinEvents, Welcomes, Admit, Joins, Distinct, Joiners, Ascending,
         PublicSlots,
         BatchOk, Pids;
    var c := w.conns[id];
    s := Sends([], [], [], []);
    if |params| >= 4 && U32(params, 0) in w.reg.byId {
      var g: Gid := U32(params, 0);
      var l := w.reg.byId[g];
      assert Names(params, g);
      MayJoinAdmits(w, l, c.userPid);
      if MayJoin(w, l, c.userPid) {
        var p := Participant(c.userPid, c.remote, Some(id));
        var ps' := Admit(l.participants, p);
        AdmitJoins(l.participants, p);
        JoinedDistinct(l.participants, ps', p);
        s := JoinWelcomes(w, port, c, g, w.conns[l.hostConn.value].remote, ps');
        var w' := Next(w, Request(port, remote, Join(params)));
        assert w'.log == w.log + ([Joined(g, c.userPid)] + s.probes + s.inserts + s.backfill);
        assert w.log + ([Joined(g, c.userPid)] + s.probes + s.inserts + s.backfill)
            == w.log + [Joined(g, c.userPid)] + s.probes + s.inserts + s.backfill;
      }
    }
  }

  lemma JoinedDistinct(ps: seq<Participant>, ps': seq<Participant>, p: Participant)
    requires Distinct(ps) && Joins(ps', ps, p)
    ensures Distinct(ps') && p.pid in Pids(ps')
  {
    if p.pid in Pids(ps) {
      var q :| q in ps && q.pid == p.pid;
      var k :| 0 <= k < |ps| && ps[k] == q;
      assert ps'[k] in ps' && ps'[k].pid == p.pid;
    } else {
      assert p in ps';
    }
  }

  // A leave takes the caller off the list and tells those who stay, if it was on it.
  lemma LeaveRemovesCaller(w: World, port: Port, remote: Remote, id: ConnId, params: seq<Byte>)
    returns (kept: seq<nat>, es: seq<Event>, at: seq<nat>)
    requires Inv(w) && Calls(w, port, remote, id)
    ensures var w' := Next(w, Request(port, remote, Leave(params))); var pid := w.conns[id].userPid;
            && (forall g | Names(params, g) && g in w.reg.byId && pid in Pids(w.reg.byId[g].participants) ::
                  && OnlyLobby(w, w', g)
                  && var l, l' := w.reg.byId[g], w'.reg.byId[g];
                     && l' == l.(participants := l'.participants)
                     && Leaves(l'.participants, l.participants, pid, kept)
                     && Reaches(es, w.table, port, l'.participants, pid, Erase(g, pid), at)
                     && w' == w.(reg := w'.reg, log := w.log + [Left(g, pid)] + es))
            && ((forall g :: !(Names(params, g) && g in w.reg.byId && pid in Pids(w.reg.byId[g].participants)))
                ==> w' == w)
  {
    hide TimersOk, TableOk, LobbiesOk, HostsOk, Broadcast, Without, Leaves, Reaches, Ascending, Pids, U32;
    var pid := w.conns[id].userPid;
    kept, es, at := [], [], [];
    if |params| >= 4 && U32(params, 0) in w.reg.byId {
      var g: Gid := U32(params, 0);
      var ps := w.reg.byId[g].participants;
      var rest := Without(ps, ByPid(pid));
      assert Names(params, g);
      LeaveMatters(ps, pid);
      kept := WithoutLeaves(ps, pid);
      es := Broadcast(w.table, port, rest, pid, Erase(g, pid));
      at := BroadcastReaches(w.table, port, rest, pid, Erase(g, pid));
      assert w.log + ([Left(g, pid)] + es) == w.log + [Left(g, pid)] + es;
    }
  }

  lemma LeaveMatters(ps: seq<Participant>, pid: Pid)
    ensures |Without(ps, ByPid(pid))| == |ps| <==> pid !in Pids(ps)
  {
    if |Without(ps, ByPid(pid))| == |ps| {
      WithoutSameSize(ps, ByPid(pid));
    }
    if pid !in Pids(ps) {
      WithoutNobody(ps, ByPid(pid));
    }
  }

  // ---- closing, opening, ending ------------------------------------------------------------------

  // A close marks the lobby and, if it expects nobody yet, takes down who is in it.
  lemma CloseTakesSnapshot(w: World, port: Port, remote: Remote, id: ConnId, params: seq<Byte>)
    requires Inv(w) && Calls(w, port, remote, id)
    ensures var w' := Next(w, Request(port, remote, Close(params)));
            && (forall g | Names(params, g) && g in w.reg.byId ::
                  && OnlyLobby(w, w', g)
                  && var l := w.reg.byId[g];
                     if l.expected == {} then
                       && w'.reg.byId[g] == l.(closed := true, expected := Pids(l.participants), received := {})
                       && w' == w.(reg := w'.reg, log := w.log + [Snapshot(g, Pids(l.participants))])
                     else
                       && w'.reg.byId[g] == l.(closed := true)
                       && w' == w.(reg := w'.reg))
            && ((forall g :: !(Names(params, g) && g in w.reg.byId)) ==> w' == w)
  {
    hide TimersOk, TableOk, HostsOk, LobbiesOk, Ascending, Pids;
    if GidOf(params) in w.reg.byId {
      assert Names(params, GidOf(params));
    }
  }

  lemma OpenClearsFlag(w: World, port: Port, remote: Remote, id: ConnId, params: seq<Byte>)
    requires Inv(w) && Calls(w, port, remote, id)
    ensures var w' := Next(w, Request(port, remote, Open(params)));
            && w' == w.(reg := w'.reg)
            && (forall g | Names(params, g) && g in w.reg.byId ::
                  OnlyLobby(w, w', g) && w'.reg.byId[g] == w.reg.byId[g].(closed := false))
            && ((forall g :: !(Names(params, g) && g in w.reg.byId)) ==> w' == w)
  {
    hide TimersOk, TableOk, HostsOk, LobbiesOk, Ascending;
    if GidOf(params) in w.reg.byId {
      assert Names(params, GidOf(params));
    }
  }

  // The oldest lobby that has the player; registry order is the order of ids.
  ghost predicate OldestWith(r: Registry, pid: Pid, g: Gid) {
    && g in r.byId && pid in Pids(r.byId[g].participants)
    && forall h | h in r.byId && pid in Pids(r.byId[h].participants) :: g <= h
  }

  lemma {:induction false} FirstIsOldest(r: Registry, order: seq<Gid>, pid: Pid)
    requires Ascending(order)
    ensures var f := FirstWith(r, order, pid);
            f.Some? ==>
              && f.value in order
              && forall h | h in order && h in r.byId && pid in Pids(r.byId[h].participants) :: f.value <= h
  {
    hide Pids;
    if order != [] && !(order[0] in r.byId && pid in Pids(r.byId[order[0]].participants)) {
      FirstIsOldest(r, order[1..], pid);
    }
  }

  lemma OldestIsFirst(r: Registry, pid: Pid, g: Gid)
    requires Consistent(r)
    ensures FirstWith(r, r.order, pid) == Some(g) <==> OldestWith(r, pid, g)
  {
    hide Pids;
    FirstIsOldest(r, r.order, pid);
  }

  // The lobby an EndGame is about: the live one it names, else the oldest that has the caller.
  ghost predicate Ends(r: Registry, params: seq<Byte>, pid: Pid, g: Gid) {
    if |params| >= 4 && U32(params, 0) in r.byId then g == U32(params, 0) else OldestWith(r, pid, g)
  }

  // After an EndGame nobody is expected in that lobby, nobody has reported and no timer runs, whatever stage its
  // match had reached; the log says so exactly if there was anything to end. No other lobby is touched.
  lemma EndGameEnds(w: World, port: Port, remote: Remote, id: ConnId, params: seq<Byte>)
    requires Inv(w) && Calls(w, port, remote, id)
    ensures var w' := Next(w, Request(port, remote, EndGame(params))); var pid := w.conns[id].userPid;
            && (forall g | Ends(w.reg, params, pid, g) ::
                  && OnlyLobby(w, w', g)
                  && var l := w.reg.byId[g];
                     && w'.reg.byId[g] == l.(expected := {}, received := {}, timer := None)
                     && w' == w.(reg := w'.reg, timers := w'.timers, log := w'.log)
                     && w'.log == w.log + (if l.expected != {} || l.timer.Some? then [Cancelled(g)] else [])
                     && w'.timers == w.timers - (if l.timer.Some? then {l.timer.value} else {}))
            && ((forall g :: !Ends(w.reg, params, pid, g)) ==> w' == w)
  {
    hide TimersOk, TableOk, HostsOk, RosterOk, Ends, Ascending, EndGameTarget, Pids, U32, Consistent;
    var pid := w.conns[id].userPid;
    assert w.log + [] == w.log && w.timers - {} == w.timers;
    forall g: Gid
      ensures EndGameTarget(w, GidOf(params), pid) == Some(g) <==> Ends(w.reg, params, pid, g)
      ensures Ends(w.reg, params, pid, g) ==> g in w.reg.byId
    {
      TargetEnds(w, params, pid, g);
    }
    var target := EndGameTarget(w, GidOf(params), pid);
    if target.Some? {
      assert Ends(w.reg, params, pid, target.value);
      assert target.value in w.reg.byId && LobbyOk(w.reg.byId[target.value]);
    }
  }

  lemma TargetEnds(w: World, params: seq<Byte>, pid: Pid, g: Gid)
    requires Consistent(w.reg)
    ensures EndGameTarget(w, GidOf(params), pid) == Some(g) <==> Ends(w.reg, params, pid, g)
    ensures Ends(w.reg, params, pid, g) ==> g in w.reg.byId
  {
    hide OldestWith, FirstWith, Ascending;
    OldestIsFirst(w.reg, pid, g);
    assert OldestWith(w.reg, pid, g) ==> g in w.reg.byId by { OldestLives(w.reg, pid, g); }
  }

  lemma OldestLives(r: Registry, pid: Pid, g: Gid)
    ensures OldestWith(r, pid, g) ==> g in r.byId
  {
  }
}
