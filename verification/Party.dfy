/**
  Runs that fill a lobby: a host connects, registers and creates it, guests
  connect and join one after the other, all on the secure port.
*/
module Party {
  import opened Options
  import opened Bytes
  import opened SparkGame
  import opened Lobbies
  import opened Machine

  function HostSteps(pid: Pid, at: Remote, url: string, raw: seq<Byte>): seq<Step> {
    [Syn(Secure, at)] + ([Connect(Secure, at, true, Some(pid))]
    + ([Request(Secure, at, RegisterEx([], url))] + ([Request(Secure, at, Create(raw))] + [])))
  }

  function GuestSteps(pid: Pid, at: Remote): seq<Step> {
    [Syn(Secure, at)] + ([Connect(Secure, at, true, Some(pid))] + ([Request(Secure, at, Join(Le32(FIRST_GID)))] + []))
  }

  lemma {:induction false} RunAppend(w: World, a: seq<Step>, b: seq<Step>)
    ensures Run(w, a + b) == Run(Run(w, a), b)
    decreases a
  {
    hide Next;
    if a == [] {
      assert [] + b == b;
      RunNone(w);
    } else {
      assert (a + b)[1..] == a[1..] + b;
      RunAppend(Next(w, a[0]), a[1..], b);
    }
  }

  // One lobby, one connection per participant in the order they came, the host's with one URL.
  ghost predicate Hall(w: World, raw: seq<Byte>, url: string, ps: seq<Participant>) {
    && ps != [] && |w.conns| == |ps| && w.conns[0].urls == [url]
    && w.reg.byId == map[FIRST_GID := NewLobby(FIRST_GID, ps[0].pid, ps[0].remote, raw, Some(0)).(participants := ps)]
    && (forall i | 0 <= i < |ps| :: w.conns[i].remote == ps[i].remote && ps[i].conn == Some(i))
    && (forall i | 0 <= i < |ps| :: Key(Secure, ps[i].remote) in w.table && w.table[Key(Secure, ps[i].remote)] == i)
  }

  // A host alone, just after creating its lobby.
  ghost predicate HostAlone(w: World, pid: Pid, at: Remote, url: string, raw: seq<Byte>) {
    && w.table == map[Key(Secure, at) := 0] && w.conns == [Conn(Secure, at, true, pid, [url])]
    && w.reg.byId == map[FIRST_GID := NewLobby(FIRST_GID, pid, at, raw, Some(0))]
    && w.log == [Created(FIRST_GID, pid)]
  }

  lemma HostOpens(pid: Pid, at: Remote, url: string, raw: seq<Byte>)
    ensures Hall(Run(START, HostSteps(pid, at, url, raw)), raw, url, [Participant(pid, at, Some(0))])
    ensures HostAlone(Run(START, HostSteps(pid, at, url, raw)), pid, at, url, raw)
  {
    hide Run, Hall, HostAlone;
    var s1, s2 := Syn(Secure, at), Connect(Secure, at, true, Some(pid));
    var s3, s4 := Request(Secure, at, RegisterEx([], url)), Request(Secure, at, Create(raw));
    var w1 := Next(START, s1);
    var w2 := Next(w1, s2);
    var w3 := Next(w2, s3);
    RunFirst(START, s1, [s2] + ([s3] + ([s4] + [])));
    RunFirst(w1, s2, [s3] + ([s4] + []));
    RunFirst(w2, s3, [s4] + []);
    RunFirst(w3, s4, []);
    RunNone(Next(w3, s4));
    HostWorld(w1, w2, w3, Next(w3, s4), pid, at, url, raw);
  }

  lemma HostWorld(w1: World, w2: World, w3: World, w4: World, pid: Pid, at: Remote, url: string, raw: seq<Byte>)
    requires w1 == Next(START, Syn(Secure, at)) && w2 == Next(w1, Connect(Secure, at, true, Some(pid)))
    requires w3 == Next(w2, Request(Secure, at, RegisterEx([], url)))
        && w4 == Next(w3, Request(Secure, at, Create(raw)))
    ensures Hall(w4, raw, url, [Participant(pid, at, Some(0))]) && HostAlone(w4, pid, at, url, raw)
  {
    assert w2.table == map[Key(Secure, at) := 0] && w2.conns == [Conn(Secure, at, true, pid, [])];
    assert w3 == w2.(conns := [Conn(Secure, at, true, pid, [url])]) by { assert [] + [url] == [url]; }
    assert w4 == CreateGathering(w3, 0, w3.conns[0], raw);
  }

  // Everybody but the host counts.
  lemma {:induction false} GuestsCount(ps: seq<Participant>)
    requires ps != [] && Distinct(ps)
    ensures Joiners(ps, ps[0].pid, {}) == |ps| - 1
  {
    var n := |ps| - 1;
    assert ps == ps[..n] + [ps[n]];
    JoinersSnoc(ps[..n], ps[n], ps[0].pid, {});
    if n > 0 {
      GuestsCount(ps[..n]);
    } else {
      assert Joiners(ps[..0], ps[0].pid, {}) == 0;
    }
  }

  // With a public slot and a seat left, a newcomer from a new remote gets in.
  lemma GuestEnters(w: World, raw: seq<Byte>, url: string, ps: seq<Participant>, pid: Pid, at: Remote)
    requires Hall(w, raw, url, ps) && Distinct(ps) && |ps| < MAX_PARTICIPANTS && |ps| <= PublicSlots(raw)
    requires forall p | p in ps :: p.pid != pid && p.remote != at
    ensures Hall(Run(w, GuestSteps(pid, at)), raw, url, ps + [Participant(pid, at, Some(|ps|))])
  {
    hide Run, Hall;
    var s1, s2, s3 := Syn(Secure, at), Connect(Secure, at, true, Some(pid)), Request(Secure, at, Join(Le32(FIRST_GID)));
    var w1 := Next(w, s1);
    var w2 := Next(w1, s2);
    RunFirst(w, s1, [s2] + ([s3] + []));
    RunFirst(w1, s2, [s3] + []);
    RunFirst(w2, s3, []);
    RunNone(Next(w2, s3));
    GuestConnects(w, w1, w2, raw, url, ps, pid, at);
    GuestJoins(w2, raw, url, ps, pid, at);
  }

  // The hall with one more connection that has not joined.
  ghost predicate Waiting(w: World, raw: seq<Byte>, url: string, ps: seq<Participant>, pid: Pid, at: Remote) {
    && |w.conns| == |ps| + 1 && w.conns[|ps|] == Conn(Secure, at, true, pid, [])
    && Key(Secure, at) in w.table && w.table[Key(Secure, at)] == |ps|
    && Hall(w.(conns := w.conns[..|ps|]), raw, url, ps)
  }

  lemma GuestConnects(w: World, w1: World, w2: World, raw: seq<Byte>, url: string, ps: seq<Participant>, pid: Pid,
                      at: Remote)
    requires Hall(w, raw, url, ps) && forall p | p in ps :: p.remote != at
    requires w1 == Next(w, Syn(Secure, at)) && w2 == Next(w1, Connect(Secure, at, true, Some(pid)))
    ensures Waiting(w2, raw, url, ps, pid, at)
  {
    assert forall i | 0 <= i < |ps| :: ps[i] in ps;
  }

  lemma GuestJoins(w: World, raw: seq<Byte>, url: string, ps: seq<Participant>, pid: Pid, at: Remote)
    requires Waiting(w, raw, url, ps, pid, at) && Distinct(ps) && |ps| < MAX_PARTICIPANTS && |ps| <= PublicSlots(raw)
    requires forall p | p in ps :: p.pid != pid
    ensures Hall(Next(w, Request(Secure, at, Join(Le32(FIRST_GID)))), raw, url, ps + [Participant(pid, at, Some(|ps|))])
  {
    hide JoinEvents, PublicSlots, Joiners, Le32, U32, Broadcast, Find;
    FirstGid();
    GuestsCount(ps);
    assert pid !in Pids(ps);
    assert Find(ps, pid) == None;
    assert Established(w, Secure, at) == Some(|ps|);
    assert Admits(w, w.reg.byId[FIRST_GID], pid);
    var w' := Next(w, Request(Secure, at, Join(Le32(FIRST_GID))));
    assert w' == JoinGathering(w, Secure, |ps|, w.conns[|ps|], Le32(FIRST_GID));
    assert w'.reg.byId[FIRST_GID].participants == ps + [Participant(pid, at, Some(|ps|))];
  }

  lemma FirstGid()
    ensures |Le32(FIRST_GID)| >= 4 && GidOf(Le32(FIRST_GID)) == FIRST_GID
  {
    HasMiddle([], Le32(FIRST_GID), []);
    assert [] + Le32(FIRST_GID) + [] == Le32(FIRST_GID);
    HasLe32(Le32(FIRST_GID), 0, FIRST_GID);
  }
}
