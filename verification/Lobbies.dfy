/**
  Lobbies and their registry as values (state/gatherings.py): what
  `GatheringRegistry` does, written as functions from registry to registry.
*/
module Lobbies {
  import opened Options
  import opened Bytes
  import opened SparkGame

  type Pid = Word
  type Gid = nat
  type ConnId = nat
  type TimerId = nat

  datatype Remote = Remote(host: string, port: nat)

  datatype Participant = Participant(pid: Pid, remote: Remote, conn: Option<ConnId>)

  datatype Lobby = Lobby(
    id: Gid, ownerPid: Pid, ownerRemote: Remote, raw: seq<Byte>, hostConn: Option<ConnId>,
    participants: seq<Participant>, invited: set<Pid>, closed: bool,
    expected: set<Pid>, received: set<Pid>, timer: Option<TimerId>)

  // Whom a removal is about: a player, or everybody behind a remote.
  datatype Who = ByPid(pid: Pid) | ByRemote(remote: Remote)

  predicate Matches(w: Who, p: Participant) {
    match w case ByPid(pid) => p.pid == pid case ByRemote(remote) => p.remote == remote
  }

  function Pids(ps: seq<Participant>): set<Pid> { set p | p in ps :: p.pid }

  predicate Distinct(ps: seq<Participant>) {
    forall i, j | 0 <= i < j < |ps| :: ps[i].pid != ps[j].pid
  }

  // The list comprehension that drops the matching participants, order kept.
  function Without(ps: seq<Participant>, w: Who): (r: seq<Participant>)
    ensures forall p :: p in r <==> p in ps && !Matches(w, p)
    ensures |r| <= |ps|
  {
    if ps == [] then []
    else
      var n := |ps| - 1;
      assert ps == ps[..n] + [ps[n]];
      if Matches(w, ps[n]) then Without(ps[..n], w) else Without(ps[..n], w) + [ps[n]]
  }

  lemma {:induction false} WithoutDistinct(ps: seq<Participant>, w: Who)
    requires Distinct(ps)
    ensures Distinct(Without(ps, w))
  {
    if ps != [] {
      var n := |ps| - 1;
      WithoutDistinct(ps[..n], w);
      forall i | 0 <= i < |Without(ps[..n], w)| ensures Without(ps[..n], w)[i].pid != ps[n].pid {
        assert Without(ps[..n], w)[i] in ps[..n];
      }
    }
  }

  lemma {:induction false} WithoutNobody(ps: seq<Participant>, w: Who)
    requires forall p | p in ps :: !Matches(w, p)
    ensures Without(ps, w) == ps
  {
    if ps != [] {
      var n := |ps| - 1;
      var init := ps[..n];
      assert forall p | p in init :: p in ps;
      WithoutNobody(init, w);
      assert ps[n] in ps && ps == init + [ps[n]];
    }
  }

  lemma {:induction false} WithoutSameSize(ps: seq<Participant>, w: Who)
    requires |Without(ps, w)| == |ps|
    ensures Without(ps, w) == ps
  {
    if ps != [] {
      var n := |ps| - 1;
      assert ps == ps[..n] + [ps[n]];
      WithoutSameSize(ps[..n], w);
    }
  }

  // A first entry that does not match stays first.
  lemma {:induction false} WithoutKeepsFirst(ps: seq<Participant>, w: Who)
    requires ps != [] && !Matches(w, ps[0])
    ensures Without(ps, w) != [] && Without(ps, w)[0] == ps[0]
  {
    if |ps| > 1 {
      WithoutKeepsFirst(ps[..|ps| - 1], w);
    }
  }

  // Index of the participant with `pid`; at most one in a lobby.
  function Find(ps: seq<Participant>, pid: Pid): (k: Option<nat>)
    ensures k.Some? ==> k.value < |ps| && ps[k.value].pid == pid
    ensures k.None? <==> pid !in Pids(ps)
  {
    if ps == [] then None
    else if ps[0].pid == pid then assert ps[0] in ps; Some(0)
    else
      assert Pids(ps) == {ps[0].pid} + Pids(ps[1..]) by {
        assert ps == [ps[0]] + ps[1..];
      }
      match Find(ps[1..], pid)
      case None => None
      case Some(k) => Some(k + 1)
  }

  // Participants that count against the public slots.
  function Joiners(ps: seq<Participant>, owner: Pid, invited: set<Pid>): nat {
    if ps == [] then 0
    else
      var n := |ps| - 1;
      Joiners(ps[..n], owner, invited) + if ps[n].pid != owner && ps[n].pid !in invited then 1 else 0
  }

  lemma JoinersSnoc(ps: seq<Participant>, p: Participant, owner: Pid, invited: set<Pid>)
    ensures Joiners(ps + [p], owner, invited)
         == Joiners(ps, owner, invited) + if p.pid != owner && p.pid !in invited then 1 else 0
  {
    assert (ps + [p])[..|ps|] == ps;
  }

  lemma {:induction false} WithoutFewerJoiners(ps: seq<Participant>, w: Who, owner: Pid, invited: set<Pid>)
    ensures Joiners(Without(ps, w), owner, invited) <= Joiners(ps, owner, invited)
  {
    if ps != [] {
      var n := |ps| - 1;
      WithoutFewerJoiners(ps[..n], w, owner, invited);
      JoinersSnoc(Without(ps[..n], w), ps[n], owner, invited);
    }
  }

  // The owner aside, at most one participant in a lobby does not count.
  lemma {:induction false} JoinersCount(ps: seq<Participant>, owner: Pid)
    requires Distinct(ps)
    ensures |ps| <= Joiners(ps, owner, {}) + if owner in Pids(ps) then 1 else 0
  {
    if ps != [] {
      var n := |ps| - 1;
      JoinersCount(ps[..n], owner);
      assert Pids(ps) == Pids(ps[..n]) + {ps[n].pid} by {
        assert ps == ps[..n] + [ps[n]];
      }
    }
  }

  function PublicRemaining(l: Lobby): nat {
    var left := PublicSlots(l.raw) as int - Joiners(l.participants, l.ownerPid, l.invited);
    if left < 0 then 0 else left
  }

  predicate IsFull(l: Lobby) { |l.participants| >= MAX_PARTICIPANTS }

  // ---- the registry ------------------------------------------------------------

  // `byId` with its insertion order is the source's `_by_id`; `owners` is `_owner_pid_to_id`.
  datatype Registry = Registry(byId: map<Gid, Lobby>, order: seq<Gid>, owners: map<Pid, Gid>, nextId: Gid)

  const FIRST_GID: Gid := 10000

  const EMPTY: Registry := Registry(map[], [], map[], FIRST_GID)

  // The order of the keys that stay.
  function Restrict(order: seq<Gid>, keys: set<Gid>): (r: seq<Gid>)
    ensures forall g :: g in r <==> g in order && g in keys
  {
    if order == [] then []
    else
      var n := |order| - 1;
      assert order == order[..n] + [order[n]];
      if order[n] in keys then Restrict(order[..n], keys) + [order[n]] else Restrict(order[..n], keys)
  }

  predicate Ascending(order: seq<Gid>) {
    forall i, j | 0 <= i < j < |order| :: order[i] < order[j]
  }

  lemma AscendingSnoc(order: seq<Gid>, g: Gid)
    requires Ascending(order) && forall k | k in order :: k < g
    ensures Ascending(order + [g])
  {
    var longer := order + [g];
    forall i, j | 0 <= i < j < |longer| ensures longer[i] < longer[j] {
      assert order[i] in order;
    }
  }

  lemma {:induction false} RestrictAscending(order: seq<Gid>, keys: set<Gid>)
    requires Ascending(order)
    ensures Ascending(Restrict(order, keys))
  {
    if order != [] {
      var n := |order| - 1;
      var init := order[..n];
      RestrictAscending(init, keys);
      assert forall g | g in init :: g < order[n];
      AscendingSnoc(Restrict(init, keys), order[n]);
    }
  }

  function NewLobby(gid: Gid, pid: Pid, remote: Remote, raw: seq<Byte>, conn: Option<ConnId>): Lobby {
    Lobby(gid, pid, remote, raw, conn, [Participant(pid, remote, conn)], {}, false, {}, {}, None)
  }

  // Keep exactly the lobbies in `keys`.
  function KeepLobbies(r: Registry, keys: set<Gid>): Registry {
    r.(byId := map g | g in r.byId && g in keys :: r.byId[g], order := Restrict(r.order, keys))
  }

  function Create(r: Registry, pid: Pid, remote: Remote, raw: seq<Byte>, conn: Option<ConnId>): Registry {
    var kept := if pid in r.owners then KeepLobbies(r, r.byId.Keys - {r.owners[pid]}) else r;
    Registry(kept.byId[r.nextId := NewLobby(r.nextId, pid, remote, raw, conn)], kept.order + [r.nextId],
             r.owners[pid := r.nextId], r.nextId + 1)
  }

  // One lobby replaced by its updated self.
  function Put(r: Registry, gid: Gid, l: Lobby): Registry {
    r.(byId := r.byId[gid := l])
  }

  // A re-join keeps the old entry and its remote; only the connection is refreshed.
  function Admit(ps: seq<Participant>, p: Participant): seq<Participant> {
    match Find(ps, p.pid)
    case None => ps + [p]
    case Some(k) => if p.conn.Some? then ps[k := ps[k].(conn := p.conn)] else ps
  }

  function AddParticipant(r: Registry, gid: Gid, p: Participant): Registry {
    if gid in r.byId then Put(r, gid, r.byId[gid].(participants := Admit(r.byId[gid].participants, p))) else r
  }

  function RemoveParticipant(r: Registry, gid: Gid, pid: Pid): Registry {
    if gid in r.byId
    then Put(r, gid, r.byId[gid].(participants := Without(r.byId[gid].participants, ByPid(pid))))
    else r
  }

  function SetClosed(r: Registry, gid: Gid, value: bool): Registry {
    if gid in r.byId then Put(r, gid, r.byId[gid].(closed := value)) else r
  }

  function Destroy(r: Registry, gid: Gid): Registry {
    if gid !in r.byId then r
    else
      var pid := r.byId[gid].ownerPid;
      var kept := KeepLobbies(r, r.byId.Keys - {gid});
      if pid in r.owners && r.owners[pid] == gid then kept.(owners := kept.owners - {pid}) else kept
  }

  function OwnedFrom(r: Registry, remote: Remote): set<Gid> {
    set g | g in r.byId && r.byId[g].ownerRemote == remote
  }

  // First close hook: every lobby whose owner sits behind `remote`.
  function DestroyByOwnerRemote(r: Registry, remote: Remote): Registry {
    var victims := OwnedFrom(r, remote);
    KeepLobbies(r, r.byId.Keys - victims).(
      owners := map p | p in r.owners && !(r.owners[p] in victims && r.byId[r.owners[p]].ownerPid == p) :: r.owners[p])
  }

  // Second close hook: participants behind `remote`, except in lobbies owned from there.
  function RemoveByRemote(r: Registry, remote: Remote): Registry {
    r.(byId := map g | g in r.byId :: Pruned(r.byId[g], remote))
  }

  function Pruned(l: Lobby, remote: Remote): Lobby {
    if l.ownerRemote == remote then l else l.(participants := Without(l.participants, ByRemote(remote)))
  }

  // The two hooks in the order they are registered.
  function CloseRemote(r: Registry, remote: Remote): Registry {
    RemoveByRemote(DestroyByOwnerRemote(r, remote), remote)
  }

  // The first lobby, in registry order, that has `pid` as a participant.
  function FirstWith(r: Registry, order: seq<Gid>, pid: Pid): (g: Option<Gid>)
    ensures g.Some? ==> g.value in r.byId && pid in Pids(r.byId[g.value].participants)
    ensures g.None? ==> forall k | k in order && k in r.byId :: pid !in Pids(r.byId[k].participants)
  {
    if order == [] then None
    else if order[0] in r.byId && pid in Pids(r.byId[order[0]].participants) then Some(order[0])
    else FirstWith(r, order[1..], pid)
  }

  // ---- what every registry operation keeps --------------------------------------

  // Owner map and id map are mutually inverse; the order lists exactly the live ids, each once, oldest first.
  ghost predicate Consistent(r: Registry) {
    && (forall g | g in r.byId :: r.byId[g].id == g && FIRST_GID <= g < r.nextId)
    && (forall g | g in r.byId :: r.byId[g].ownerPid in r.owners && r.owners[r.byId[g].ownerPid] == g)
    && (forall p | p in r.owners :: r.owners[p] in r.byId && r.byId[r.owners[p]].ownerPid == p)
    && (forall g :: g in r.order <==> g in r.byId)
    && Ascending(r.order)
    && FIRST_GID <= r.nextId
  }

  lemma KeepConsistent(r: Registry, keys: set<Gid>)
    requires Consistent(r)
    ensures var k := KeepLobbies(r, keys);
            && (forall g :: g in k.order <==> g in k.byId) && Ascending(k.order)
            && (forall g | g in k.byId :: r.byId[g] == k.byId[g])
  {
    RestrictAscending(r.order, keys);
  }

  lemma CreateOrder(r: Registry, pid: Pid, remote: Remote, raw: seq<Byte>, conn: Option<ConnId>)
    requires Consistent(r)
    ensures var c := Create(r, pid, remote, raw, conn);
            (forall g :: g in c.order <==> g in c.byId) && Ascending(c.order)
  {
    hide NewLobby, Restrict, Ascending;
    if pid in r.owners {
      KeepConsistent(r, r.byId.Keys - {r.owners[pid]});
      AscendingSnoc(KeepLobbies(r, r.byId.Keys - {r.owners[pid]}).order, r.nextId);
    } else {
      AscendingSnoc(r.order, r.nextId);
    }
  }

  lemma CreateConsistent(r: Registry, pid: Pid, remote: Remote, raw: seq<Byte>, conn: Option<ConnId>)
    requires Consistent(r)
    ensures Consistent(Create(r, pid, remote, raw, conn))
  {
    hide Restrict, Ascending;
    CreateOrder(r, pid, remote, raw, conn);
  }

  lemma PutConsistent(r: Registry, gid: Gid, l: Lobby)
    requires Consistent(r) && gid in r.byId && l.id == gid && l.ownerPid == r.byId[gid].ownerPid
    ensures Consistent(Put(r, gid, l))
  {
  }

  lemma DestroyConsistent(r: Registry, gid: Gid)
    requires Consistent(r)
    ensures Consistent(Destroy(r, gid))
  {
    hide Restrict, Ascending;
    KeepConsistent(r, r.byId.Keys - {gid});
  }

  // The two hooks together: the owner's lobbies go, the rest lose the participants behind the remote.
  lemma CloseParts(r: Registry, remote: Remote)
    requires Consistent(r)
    ensures var c := CloseRemote(r, remote);
            && c.byId.Keys == r.byId.Keys - OwnedFrom(r, remote)
            && c.nextId == r.nextId
            && forall g | g in c.byId ::
                 c.byId[g] == r.byId[g].(participants := Without(r.byId[g].participants, ByRemote(remote)))
  {
    hide Without, Restrict, Ascending;
  }

  lemma CloseConsistent(r: Registry, remote: Remote)
    requires Consistent(r)
    ensures Consistent(CloseRemote(r, remote))
    ensures var c := CloseRemote(r, remote);
            && c.byId.Keys == r.byId.Keys - OwnedFrom(r, remote)
            && c.nextId == r.nextId
            && forall g | g in c.byId ::
                 c.byId[g] == r.byId[g].(participants := Without(r.byId[g].participants, ByRemote(remote)))
  {
    hide Restrict, Ascending, Without;
    KeepConsistent(r, r.byId.Keys - OwnedFrom(r, remote));
    CloseParts(r, remote);
  }

  // After both hooks the remote occurs nowhere, neither as an owner nor as a participant.
  lemma CloseErases(r: Registry, remote: Remote)
    requires Consistent(r)
    ensures forall g | g in CloseRemote(r, remote).byId ::
              CloseRemote(r, remote).byId[g].ownerRemote != remote
              && forall p | p in CloseRemote(r, remote).byId[g].participants :: p.remote != remote
  {
    CloseConsistent(r, remote);
  }
}
