/**
  Roster replication over whole runs: exactly which runs keep what clients were
  told in agreement with the server's lists, and the runs that do not.
*/
module RosterRuns {
  import opened Options
  import opened Bytes
  import opened Lobbies
  import opened Machine
  import opened Invariants
  import opened Orphans
  import opened Party
  import opened Roster

  // Every step of the run is heard at its time.
  ghost predicate AllHeard(w: World, steps: seq<Step>)
    decreases steps
  {
    steps != [] ==> Heard(w, steps[0]) && AllHeard(Next(w, steps[0]), steps[1..])
  }

  // A whole run: what clients were told agrees with the server's lists in every state of it if and only if each
  // of its steps is heard.
  lemma {:induction false} RostersAgreeIff(w: World, steps: seq<Step>)
    requires Inv(w) && Replicated(w)
    ensures (forall n | 0 <= n <= |steps| :: Replicated(Run(w, steps[..n]))) <==> AllHeard(w, steps)
    decreases steps
  {
    hide Inv, Replicated, Heard, Next;
    if steps == [] {
      assert steps[..0] == [];
      RunNone(w);
    } else {
      var s, rest := steps[0], steps[1..];
      var w1 := Next(w, s);
      KeepsRostersIff(w, s);
      InvNext(w, s);
      forall n | 0 <= n <= |rest| ensures Run(w, steps[..n + 1]) == Run(w1, rest[..n]) {
        assert steps[..n + 1] == [s] + rest[..n];
        RunFirst(w, s, rest[..n]);
      }
      assert steps[..0] == [] && rest[..0] == [];
      RunNone(w);
      RunNone(w1);
      if Heard(w, s) {
        RostersAgreeIff(w1, rest);
        forall n | 0 <= n <= |steps| && forall m | 0 <= m <= |rest| :: Replicated(Run(w1, rest[..m]))
          ensures Replicated(Run(w, steps[..n]))
        {
          if n > 0 { assert Run(w, steps[..n - 1 + 1]) == Run(w1, rest[..n - 1]); }
        }
        forall m | 0 <= m <= |rest| && forall n | 0 <= n <= |steps| :: Replicated(Run(w, steps[..n]))
          ensures Replicated(Run(w1, rest[..m]))
        {
          assert Run(w, steps[..m + 1]) == Run(w1, rest[..m]);
        }
      } else {
        assert !Replicated(Run(w, steps[..0 + 1]));
      }
    }
  }

  // ---- on the secure port everybody is heard -------------------------------------------------------------

  // While everybody is connected on the secure port, an admitted join keeps the rosters exactly if it came through
  // that port.
  lemma JoinNeedsSecurePort(w: World, port: Port, remote: Remote, params: seq<Byte>)
    requires Inv(w) && Replicated(w) && NoOrphans(w, {Secure}) && Established(w, port, remote).Some?
    requires |params| >= 4 && GidOf(params) in w.reg.byId
    requires Admits(w, w.reg.byId[GidOf(params)], w.conns[Established(w, port, remote).value].userPid)
    ensures Replicated(Next(w, Request(port, remote, Join(params)))) <==> port == Secure
  {
    hide Replicated, Admits, Told, Admit, TimersOk, HostsOk, Next;
    KeepsRostersIff(w, Request(port, remote, Join(params)));
    var id := Established(w, port, remote).value;
    var c, l := w.conns[id], w.reg.byId[GidOf(params)];
    if port == Secure {
      assert Key(Secure, remote) in w.table && c.remote == remote;
      assert LobbyLive(w.table, {Secure}, l);
      SecureJoinHeard(w, c, GidOf(params), Participant(c.userPid, c.remote, Some(id)));
    }
  }

  lemma SecureJoinHeard(w: World, c: Conn, gid: Gid, joiner: Participant)
    requires gid in w.reg.byId && LobbyLive(w.table, {Secure}, w.reg.byId[gid])
        && Distinct(w.reg.byId[gid].participants)
    requires joiner.pid == c.userPid && joiner.remote == c.remote && Key(Secure, c.remote) in w.table
    ensures JoinHeard(w, Secure, c, gid, Admit(w.reg.byId[gid].participants, joiner))
  {
    hide ClientRoster;
    var ps := w.reg.byId[gid].participants;
    var ps' := Admit(ps, joiner);
    AdmitOthers(ps, joiner);
    forall q | q in ps' ensures Key(Secure, q.remote) in w.table {
      if q !in ps { assert q.remote == c.remote || exists p :: p in ps && p.remote == q.remote; }
    }
  }

  // A leave that takes effect keeps them exactly if it came through that port or nobody stays.
  lemma LeaveNeedsSecurePort(w: World, port: Port, remote: Remote, params: seq<Byte>)
    requires Inv(w) && Replicated(w) && NoOrphans(w, {Secure}) && Established(w, port, remote).Some?
    requires GidOf(params) in w.reg.byId
    requires w.conns[Established(w, port, remote).value].userPid in Pids(w.reg.byId[GidOf(params)].participants)
    ensures var pid := w.conns[Established(w, port, remote).value].userPid;
            Replicated(Next(w, Request(port, remote, Leave(params))))
            <==> port == Secure || Without(w.reg.byId[GidOf(params)].participants, ByPid(pid)) == []
  {
    hide Inv, Replicated, Told, Next, Pids;
    KeepsRostersIff(w, Request(port, remote, Leave(params)));
    var l := w.reg.byId[GidOf(params)];
    var rest := Without(l.participants, ByPid(w.conns[Established(w, port, remote).value].userPid));
    assert LobbyLive(w.table, {Secure}, l);
    if rest != [] { assert rest[0] in rest; }
  }

  lemma SecureStepHeard(w: World, s: Step)
    requires Inv(w) && Replicated(w) && NoOrphans(w, {Secure}) && SecureStep(s)
    ensures Heard(w, s)
  {
    hide Replicated, Told, TimersOk, HostsOk, Consistent, Next, Admits;
    if s.Request? && Established(w, s.port, s.remote).Some? {
      var id := Established(w, s.port, s.remote).value;
      var c := w.conns[id];
      match s.call
      case Join(params) =>
        if |params| >= 4 && GidOf(params) in w.reg.byId && Admits(w, w.reg.byId[GidOf(params)], c.userPid) {
          JoinNeedsSecurePort(w, s.port, s.remote, params);
          KeepsRostersIff(w, s);
        }
      case Leave(params) =>
        if GidOf(params) in w.reg.byId && c.userPid in Pids(w.reg.byId[GidOf(params)].participants) {
          LeaveNeedsSecurePort(w, s.port, s.remote, params);
          KeepsRostersIff(w, s);
        }
      case _ =>
    }
  }

  // So a run whose membership requests all come through the secure port is heard throughout.
  lemma {:induction false} SecureRunHeard(w: World, steps: seq<Step>)
    requires Inv(w) && Replicated(w) && NoOrphans(w, {Secure}) && forall s | s in steps :: SecureStep(s)
    ensures AllHeard(w, steps)
    decreases steps
  {
    hide Inv, Replicated, NoOrphans, Heard, Next;
    if steps != [] {
      assert SecureStep(steps[0]);
      SecureStepHeard(w, steps[0]);
      KeepsRostersIff(w, steps[0]);
      InvNext(w, steps[0]);
      NoOrphansNext(w, {Secure}, steps[0]);
      SecureRunHeard(Next(w, steps[0]), steps[1..]);
    }
  }

  lemma SecureRunsAreHeard(steps: seq<Step>)
    requires forall s | s in steps :: SecureStep(s)
    ensures AllHeard(START, steps)
  {
    SecureRunHeard(START, steps);
  }

  lemma {:induction false} ReplicatedRun(w: World, steps: seq<Step>)
    requires Inv(w) && Replicated(w) && AllHeard(w, steps)
    ensures Replicated(Run(w, steps))
    decreases steps
  {
    hide Inv, Replicated, Heard, Next;
    if steps != [] {
      InvNext(w, steps[0]);
      KeepsRostersIff(w, steps[0]);
      ReplicatedRun(Next(w, steps[0]), steps[1..]);
    }
  }

  // ---- the theorem ---------------------------------------------------------------------------------

  lemma StartAgrees()
    ensures Inv(START) && Replicated(START)
  {
  }

  // After any run in which everybody was heard, what a participant has been told is the server's list plus exactly
  // the players a disconnect removed and who are not back. So it misses nobody, and it is exact if and only if
  // there are no such players, in particular if no disconnect has removed anybody since that participant came in.
  lemma RostersReplicated(steps: seq<Step>, gid: Gid, p: Participant)
    requires AllHeard(START, steps)
    requires gid in Run(START, steps).reg.byId && p in Run(START, steps).reg.byId[gid].participants
    ensures var w := Run(START, steps); var server := Pids(w.reg.byId[gid].participants);
            var client := ClientRoster(w.log, gid, p.pid, p.remote); var stale := Stale(w.log, gid, p.pid);
            && client == server + stale && stale !! server
            && (client == server <==> stale == {})
            && (!DroppedSince(w.log, gid, p.pid) ==> client == server)
  {
    hide Run, AllHeard;
    StartAgrees();
    ReplicatedRun(START, steps);
    StaleWasDropped(Run(START, steps).log, gid, p.pid);
  }

  // Nobody is told of a disconnect: whoever else stays in the lobby keeps every dropped player on its roster,
  // while the server's list has lost it.
  lemma DroppedStayOnRosters(steps: seq<Step>, port: Port, gid: Gid, p: Participant, q: Participant)
    requires AllHeard(START, steps) && gid in Run(START, steps).reg.byId
    requires p in Run(START, steps).reg.byId[gid].participants && q in Run(START, steps).reg.byId[gid].participants
    requires p.remote != q.remote && p.remote != Run(START, steps).reg.byId[gid].ownerRemote
    ensures var w := Next(Run(START, steps), Disconnect(port, p.remote));
            && gid in w.reg.byId && q in w.reg.byId[gid].participants && p.pid !in Pids(w.reg.byId[gid].participants)
            && p.pid in ClientRoster(w.log, gid, q.pid, q.remote)
  {
    hide Run, AllHeard, ClientRoster, Stale, Pids, CloseRemote, DroppedBy, TimersOk, TableOk, HostsOk, Joiners, Without;
    var w := Run(START, steps);
    StartAgrees();
    InvRun(START, steps);
    ReplicatedRun(START, steps);
    CloseConsistent(w.reg, p.remote);
    CloseErases(w.reg, p.remote);
    DroppedPids(w.reg.byId[gid].participants, p, q);
    assert Told(w.log, gid, w.reg.byId[gid].participants, q);
    RosterSnoc(w.log, Closed(p.remote, DroppedBy(w.reg, p.remote)), gid, q.pid, q.remote);
  }

  lemma DroppedPids(ps: seq<Participant>, p: Participant, q: Participant)
    requires Distinct(ps) && p in ps && q in ps && p.remote != q.remote
    ensures q in Without(ps, ByRemote(p.remote)) && p.pid in Pids(ps) && p.pid !in Pids(Without(ps, ByRemote(p.remote)))
  {
    DropPids(ps, p.remote);
    assert p.pid in PidsAt(ps, p.remote);
  }

  // Such a run: a host, a guest, and the guest's disconnect.
  lemma GuestDropIsUntold(pid: Pid, at: Remote, url: string, guest: Pid, guestAt: Remote)
    requires pid != guest && at != guestAt
    ensures var w := Run(START, HostSteps(pid, at, url, []) + GuestSteps(guest, guestAt)
                         + [Disconnect(Secure, guestAt)]);
            && FIRST_GID in w.reg.byId && Pids(w.reg.byId[FIRST_GID].participants) == {pid}
            && guest in ClientRoster(w.log, FIRST_GID, pid, at)
  {
    hide Run, Hall, HostSteps, GuestSteps, ClientRoster, AllHeard, Next, SecureStep;
    var h, g, d := HostSteps(pid, at, url, []), GuestSteps(guest, guestAt), Disconnect(Secure, guestAt);
    var host, joiner := Participant(pid, at, Some(0)), Participant(guest, guestAt, Some(1));
    RunAppend(START, h, g);
    RunSnoc(START, h + g, d);
    HostOpens(pid, at, url, []);
    GuestEnters(Run(START, h), [], url, [host], guest, guestAt);
    assert [host] + [joiner] == [host, joiner];
    PartyIsSecure(pid, at, url, [], guest, guestAt);
    SecureRunsAreHeard(h + g);
    HallLobby(Run(START, h + g), [], url, [host, joiner]);
    DroppedStayOnRosters(h + g, Secure, FIRST_GID, joiner, host);
    StartAgrees();
    InvRun(START, h + g);
    OnlyHostLeft(Run(START, h + g), host, joiner);
  }

  lemma PartyIsSecure(pid: Pid, at: Remote, url: string, raw: seq<Byte>, guest: Pid, guestAt: Remote)
    ensures forall s | s in HostSteps(pid, at, url, raw) + GuestSteps(guest, guestAt) :: SecureStep(s)
  {
  }

  lemma HallLobby(w: World, raw: seq<Byte>, url: string, ps: seq<Participant>)
    requires Hall(w, raw, url, ps)
    ensures FIRST_GID in w.reg.byId && w.reg.byId[FIRST_GID].participants == ps && ps != []
    ensures w.reg.byId[FIRST_GID].ownerRemote == ps[0].remote
  {
  }

  lemma OnlyHostLeft(w: World, host: Participant, guest: Participant)
    requires Consistent(w.reg) && FIRST_GID in w.reg.byId && w.reg.byId[FIRST_GID].participants == [host, guest]
    requires host.remote != guest.remote
    requires FIRST_GID in Next(w, Disconnect(Secure, guest.remote)).reg.byId
    ensures Pids(Next(w, Disconnect(Secure, guest.remote)).reg.byId[FIRST_GID].participants) == {host.pid}
  {
    hide CloseRemote, DroppedBy, Consistent;
    CloseConsistent(w.reg, guest.remote);
    StaysAlone(host, guest);
  }

  lemma StaysAlone(host: Participant, guest: Participant)
    requires host.remote != guest.remote
    ensures Pids(Without([host, guest], ByRemote(guest.remote))) == {host.pid}
  {
    var ps := [host, guest];
    assert ps[..1] == [host] && [host][..0] == [];
    assert Without([host], ByRemote(guest.remote)) == [host];
    assert Without(ps, ByRemote(guest.remote)) == [host];
    assert Pids([host]) == {host.pid} by { assert host in [host]; }
  }

  // ---- and why it needs the secure port ---------------------------------------------------------------

  // A guest that connects and joins on the other port, without a ticket.
  function AuthGuestSteps(at: Remote): seq<Step> {
    [Syn(Auth, at)] + ([Connect(Auth, at, true, None)] + ([Request(Auth, at, Join(Le32(FIRST_GID)))] + []))
  }

  // A join through the authentication port, whose dispatcher serves the lobby requests too, is admitted
  // (as player 0), but its pushes look up that port's own table and the host is never told.
  lemma AuthPortJoinIsUntold(pid: Pid, hostAt: Remote, url: string, guestAt: Remote)
    requires pid != 0 && hostAt != guestAt
    ensures var w := Run(START, HostSteps(pid, hostAt, url, []) + AuthGuestSteps(guestAt));
            FIRST_GID in w.reg.byId && Pids(w.reg.byId[FIRST_GID].participants) == {0, pid}
            && ClientRoster(w.log, FIRST_GID, pid, hostAt) == {pid} && !DroppedSince(w.log, FIRST_GID, pid)
  {
    hide Run, Pids, ClientRoster, DroppedSince, JoinGathering, HostSteps, NewLobby;
    var h := HostSteps(pid, hostAt, url, []);
    var s1, s2, s3 := Syn(Auth, guestAt), Connect(Auth, guestAt, true, None),
                      Request(Auth, guestAt, Join(Le32(FIRST_GID)));
    var w := Run(START, h);
    var w1 := Next(w, s1);
    var w2 := Next(w1, s2);
    RunAppend(START, h, AuthGuestSteps(guestAt));
    RunFirst(w, s1, [s2] + ([s3] + []));
    RunFirst(w1, s2, [s3] + []);
    RunFirst(w2, s3, []);
    RunNone(Next(w2, s3));
    HostOpens(pid, hostAt, url, []);
    assert GuestWaits(w2, pid, hostAt, url, guestAt);
    GuestJoins(w2, pid, hostAt, url, guestAt);
  }

  ghost predicate GuestWaits(w: World, pid: Pid, hostAt: Remote, url: string, guestAt: Remote) {
    && w.table == map[Key(Secure, hostAt) := 0, Key(Auth, guestAt) := 1]
    && w.conns == [Conn(Secure, hostAt, true, pid, [url]), Conn(Auth, guestAt, true, 0, [])]
    && w.reg.byId == map[FIRST_GID := NewLobby(FIRST_GID, pid, hostAt, [], Some(0))]
    && w.log == [Created(FIRST_GID, pid)]
  }

  lemma GuestJoins(w: World, pid: Pid, hostAt: Remote, url: string, guestAt: Remote)
    requires GuestWaits(w, pid, hostAt, url, guestAt) && pid != 0 && hostAt != guestAt
    ensures var w' := Next(w, Request(Auth, guestAt, Join(Le32(FIRST_GID))));
            FIRST_GID in w'.reg.byId && Pids(w'.reg.byId[FIRST_GID].participants) == {0, pid}
            && ClientRoster(w'.log, FIRST_GID, pid, hostAt) == {pid} && !DroppedSince(w'.log, FIRST_GID, pid)
  {
    hide ClientRoster, DroppedSince, JoinEvents, Le32, U32;
    var host, guest := Participant(pid, hostAt, Some(0)), Participant(0, guestAt, Some(1));
    FirstGid();
    assert Established(w, Auth, guestAt) == Some(1);
    assert Joiners([host], pid, {}) == 0 by { assert [host][..0] == []; }
    assert Find([host], 0) == None;
    var w' := Next(w, Request(Auth, guestAt, Join(Le32(FIRST_GID))));
    assert w'.reg.byId[FIRST_GID].participants == [host, guest];
    GuestEvents(w.table, w.conns[1], host, guest);
    RosterOfGuestRun(pid, hostAt, guestAt);
  }

  lemma GuestEvents(table: map<Key, ConnId>, c: Conn, host: Participant, guest: Participant)
    requires table == map[Key(Secure, host.remote) := 0, Key(Auth, guest.remote) := 1]
    requires host.pid != 0 && guest.pid == 0 && host.remote != guest.remote
        && c == Conn(Auth, guest.remote, true, 0, [])
    ensures JoinEvents(table, Auth, host.remote, c, FIRST_GID, [host, guest])
         == [Joined(FIRST_GID, 0), Sent(Auth, guest.remote, Insert(FIRST_GID, host.pid)),
             Sent(Auth, guest.remote, Insert(FIRST_GID, 0))]
  {
    assert [host, guest][..1] == [host] && [host][..0] == [] && [host, guest][1..] == [guest];
    assert Find([guest], 0) == Some(0);
    assert Find([host, guest], 0) == Some(1);
    assert Broadcast(table, Auth, [host], 0, Insert(FIRST_GID, 0)) == [];
    assert Broadcast(table, Auth, [host, guest], 0, Insert(FIRST_GID, 0)) == [];
    assert Backfill(Auth, guest.remote, FIRST_GID, [host, guest])
        == [Sent(Auth, guest.remote, Insert(FIRST_GID, host.pid)), Sent(Auth, guest.remote, Insert(FIRST_GID, 0))];
  }

  lemma RosterOfGuestRun(pid: Pid, hostAt: Remote, guestAt: Remote)
    requires pid != 0 && hostAt != guestAt
    ensures var log := [Created(FIRST_GID, pid)] + [Joined(FIRST_GID, 0), Sent(Auth, guestAt, Insert(FIRST_GID, pid)),
                                                    Sent(Auth, guestAt, Insert(FIRST_GID, 0))];
            ClientRoster(log, FIRST_GID, pid, hostAt) == {pid} && !DroppedSince(log, FIRST_GID, pid)
  {
    var log := [Created(FIRST_GID, pid), Joined(FIRST_GID, 0), Sent(Auth, guestAt, Insert(FIRST_GID, pid)),
                Sent(Auth, guestAt, Insert(FIRST_GID, 0))];
    assert [Created(FIRST_GID, pid)] + log[1..] == log;
    assert log[..3][..2] == log[..2] && log[..2][..1] == log[..1] && log[..1][..0] == [];
    assert ClientRoster(log[..1], FIRST_GID, pid, hostAt) == {pid};
    assert ClientRoster(log[..3], FIRST_GID, pid, hostAt) == {pid};
    assert !DroppedSince(log[..1], FIRST_GID, pid);
    assert !DroppedSince(log[..3], FIRST_GID, pid);
  }
}
