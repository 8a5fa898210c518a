/**
  The gathering registry as the objects it is (state/gatherings.py): lobbies are
  mutable objects shared by everybody who looked one up, the registry is two
  dictionaries. Every method is proved to do to the objects what the functions
  of `Lobbies` do to values.
*/
module Gatherings {
  import opened Options
  import opened Bytes
  import opened SparkGame
  import opened Lobbies

  class Gathering {
    const id: Gid
    const ownerPid: Pid
    const ownerRemote: Remote
    const rawParams: seq<Byte>
    const hostConn: Option<ConnId>
    var participants: seq<Participant>
    var invited: set<Pid>
    var closed: bool
    var expected: set<Pid>
    var received: set<Pid>
    var timer: Option<TimerId>

    ghost function Value(): Lobby
      reads this
    {
      Lobby(id, ownerPid, ownerRemote, rawParams, hostConn, participants, invited, closed, expected, received, timer)
    }

    // A fresh lobby has its host as participant 0.
    constructor (id: Gid, pid: Pid, remote: Remote, raw: seq<Byte>, conn: Option<ConnId>)
      ensures Value() == NewLobby(id, pid, remote, raw, conn) && this.id == id
    {
      this.id, ownerPid, ownerRemote, rawParams, hostConn := id, pid, remote, raw, conn;
      participants := [Participant(pid, remote, conn)];
      invited, closed, expected, received, timer := {}, false, {}, {}, None;
    }

    // `public_remaining`: count the joiners that were not invited.
    method PublicRemaining() returns (left: nat)
      ensures left == Lobbies.PublicRemaining(Value())
    {
      var joiners := 0;
      for i := 0 to |participants|
        invariant joiners == Joiners(participants[..i], ownerPid, invited)
      {
        JoinersSnoc(participants[..i], participants[i], ownerPid, invited);
        assert participants[..i + 1] == participants[..i] + [participants[i]];
        if participants[i].pid != ownerPid && participants[i].pid !in invited {
          joiners := joiners + 1;
        }
      }
      assert participants[..|participants|] == participants;
      var slots := PublicSlots(rawParams);
      left := if slots < joiners then 0 else slots - joiners;
    }

    // The list comprehension over the participants.
    method Drop(who: Who)
      modifies `participants
      ensures Value() == old(Value()).(participants := Without(old(participants), who))
    {
      var kept := [];
      for i := 0 to |participants|
        invariant kept == Without(participants[..i], who)
      {
        assert participants[..i + 1][..i] == participants[..i];
        if !Matches(who, participants[i]) {
          kept := kept + [participants[i]];
        }
      }
      assert participants[..|participants|] == participants;
      participants := kept;
    }

    // The owner's own lobby is skipped.
    method Prune(remote: Remote)
      modifies `participants
      ensures Value() == Pruned(old(Value()), remote)
    {
      if ownerRemote != remote {
        Drop(ByRemote(remote));
      }
    }

    // The search of `add_participant`: the first entry with the pid is refreshed, or a new one appended.
    method Admit(p: Participant)
      modifies `participants
      ensures Value() == old(Value()).(participants := Lobbies.Admit(old(participants), p))
    {
      for i := 0 to |participants|
        invariant participants == old(participants)
        invariant Find(participants, p.pid)
            == match Find(participants[i..], p.pid) case None => None case Some(k) => Some(k + i)
      {
        assert participants[i..][1..] == participants[i + 1..];
        if participants[i].pid == p.pid {
          if p.conn.Some? {
            participants := participants[i := participants[i].(conn := p.conn)];
          }
          return;
        }
      }
      participants := participants + [p];
    }
  }

  class GatheringRegistry {
    var byId: map<Gid, Gathering>
    var order: seq<Gid>          // the dictionary's insertion order
    var owners: map<Pid, Gid>
    var nextId: Gid
    ghost var objects: set<Gathering>   // every lobby ever filed; handlers may still hold dead ones

    // Every object is filed under its own id; the order lists the keys once each.
    ghost predicate Valid()
      reads this
    {
      && (forall g | g in byId :: byId[g] in objects && byId[g].id == g)
      && (forall g :: g in order <==> g in byId)
      && Ascending(order)
      && (forall g | g in byId :: g < nextId)
    }

    ghost function Contents(): (m: map<Gid, Lobby>)
      requires Valid()
      reads this, objects
      ensures m.Keys == byId.Keys && forall g | g in byId :: m[g] == byId[g].Value()
    {
      map g | g in byId :: byId[g].Value()
    }

    ghost function View(): (r: Registry)
      requires Valid()
      reads this, objects
      ensures r.byId.Keys == byId.Keys && forall g | g in byId :: r.byId[g] == byId[g].Value()
      ensures r.order == order && r.owners == owners && r.nextId == nextId
    {
      Registry(Contents(), order, owners, nextId)
    }

    constructor ()
      ensures Valid() && View() == EMPTY && objects == {}
    {
      byId, order, owners, nextId, objects := map[], [], map[], FIRST_GID, {};
    }

    // Drop every id outside `keys` from the one dictionary and the pids `gone` from the other.
    method Keep(keys: set<Gid>, gone: set<Pid>)
      requires Valid()
      modifies `byId, `order, `owners
      ensures Valid() && View() == KeepLobbies(old(View()), keys).(owners := old(owners) - gone)
    {
      hide Ascending, Restrict, Contents, Gathering.Value;
      RestrictAscending(order, keys);
      byId, order, owners := map g | g in byId && g in keys :: byId[g], Restrict(order, keys), owners - gone;
      assert Contents() == KeepLobbies(old(View()), keys).byId;
    }

    // A host that still owns a lobby loses it first.
    method Create(pid: Pid, remote: Remote, raw: seq<Byte>, conn: Option<ConnId>) returns (gid: Gid)
      requires Valid()
      modifies this
      ensures Valid() && View() == Lobbies.Create(old(View()), pid, remote, raw, conn)
      ensures gid == old(nextId) && fresh(objects - old(objects))
    {
      hide Ascending, Restrict, NewLobby, Contents, Gathering.Value;
      if pid in owners {
        Keep(byId.Keys - {owners[pid]}, {});
      }
      gid := Add(pid, remote, raw, conn);
    }

    method Add(pid: Pid, remote: Remote, raw: seq<Byte>, conn: Option<ConnId>) returns (gid: Gid)
      requires Valid()
      modifies this
      ensures Valid() && gid == old(nextId) && fresh(objects - old(objects))
      ensures var r := old(View());
              View() == Registry(r.byId[gid := NewLobby(gid, pid, remote, raw, conn)], r.order + [gid],
                                 r.owners[pid := gid], gid + 1)
    {
      hide Ascending, NewLobby, Contents, Gathering.Value;
      gid := nextId;
      var g := new Gathering(gid, pid, remote, raw, conn);
      File(g, pid);
    }

    // The object goes into both dictionaries under the next id.
    method File(g: Gathering, pid: Pid)
      requires Valid() && g.id == nextId
      modifies this
      ensures Valid() && objects == old(objects) + {g}
      ensures var r, gid := old(View()), old(nextId);
              View() == Registry(r.byId[gid := g.Value()], r.order + [gid], r.owners[pid := gid], gid + 1)
    {
      hide Ascending, Contents, Gathering.Value;
      AscendingSnoc(order, nextId);
      ghost var before := View();
      objects := objects + {g};
      assert forall k :: k in order + [nextId] <==> k in order || k == nextId;
      byId, order, owners, nextId := byId[nextId := g], order + [nextId], owners[pid := nextId], nextId + 1;
      Filed(before, g, pid);
    }

    lemma Filed(before: Registry, g: Gathering, pid: Pid)
      requires Valid() && g.id in byId && byId[g.id] == g && byId.Keys == before.byId.Keys + {g.id}
      requires forall k | k in byId && k != g.id :: before.byId[k] == byId[k].Value()
      requires order == before.order + [g.id] && owners == before.owners[pid := g.id] && nextId == g.id + 1
      ensures View() == Registry(before.byId[g.id := g.Value()], before.order + [g.id], before.owners[pid := g.id],
                                 g.id + 1)
    {
      assert Contents() == before.byId[g.id := g.Value()];
    }

    // After one lobby's fields changed.
    lemma OneLobby(before: Registry, gid: Gid)
      requires Valid() && gid in byId && before.byId.Keys == byId.Keys
      requires before.order == order && before.owners == owners && before.nextId == nextId
      requires forall g | g in byId && g != gid :: before.byId[g] == byId[g].Value()
      ensures View() == Put(before, gid, byId[gid].Value())
    {
      assert Contents() == before.byId[gid := byId[gid].Value()];
    }

    method AddParticipant(gid: Gid, p: Participant)
      requires Valid()
      modifies objects
      ensures Valid() && View() == Lobbies.AddParticipant(old(View()), gid, p)
    {
      if gid in byId {
        byId[gid].Admit(p);
        OneLobby(old(View()), gid);
      }
    }

    method RemoveParticipant(gid: Gid, pid: Pid) returns (removed: bool)
      requires Valid()
      modifies objects
      ensures Valid() && View() == Lobbies.RemoveParticipant(old(View()), gid, pid)
      ensures removed <==> gid in byId && |View().byId[gid].participants| != |old(View()).byId[gid].participants|
    {
      if gid !in byId { return false; }
      var before := |byId[gid].participants|;
      byId[gid].Drop(ByPid(pid));
      OneLobby(old(View()), gid);
      removed := |byId[gid].participants| != before;
    }

    // Joiner disconnect cleanup: every lobby not owned from the remote loses its participants behind it.
    method RemoveParticipantByRemote(remote: Remote)
      requires Valid()
      modifies objects
      ensures Valid() && View() == RemoveByRemote(old(View()), remote)
    {
      hide Pruned, Contents, Gathering.Value;
      ghost var before := Contents();
      ghost var after := RemoveByRemote(View(), remote).byId;
      assert forall k | 0 <= k < |order| :: order[k] in order;
      for i := 0 to |order|
        invariant forall k | 0 <= k < |order| ::
                    byId[order[k]].Value() == if k < i then after[order[k]] else before[order[k]]
      {
        assert forall k | 0 <= k < |order| && k != i :: order[k] != order[i];
        byId[order[i]].Prune(remote);
      }
      forall g | g in byId ensures Contents()[g] == after[g] {
        assert g in order;
      }
      assert Contents() == after;
    }

    // The end-of-match fields of one lobby.
    method SetBatch(gid: Gid, expected: set<Pid>, received: set<Pid>, timer: Option<TimerId>)
      requires Valid() && gid in byId
      modifies objects
      ensures Valid()
      ensures View() == Put(old(View()), gid,
                            old(View()).byId[gid].(expected := expected, received := received, timer := timer))
    {
      hide Contents, Ascending;
      byId[gid].expected := expected;
      byId[gid].received := received;
      byId[gid].timer := timer;
      OneLobby(old(View()), gid);
    }

    method SetClosed(gid: Gid, value: bool)
      requires Valid()
      modifies objects
      ensures Valid() && View() == Lobbies.SetClosed(old(View()), gid, value)
    {
      if gid !in byId { return; }
      if byId[gid].closed != value {
        byId[gid].closed := value;
      }
      OneLobby(old(View()), gid);
    }

    method Destroy(gid: Gid)
      requires Valid()
      modifies this
      ensures Valid() && View() == Lobbies.Destroy(old(View()), gid)
      ensures objects == old(objects)
    {
      hide Ascending, Restrict, Contents;
      if gid !in byId { return; }
      var pid := byId[gid].ownerPid;
      assert owners - {} == owners;
      Keep(byId.Keys - {gid}, if pid in owners && owners[pid] == gid then {pid} else {});
    }

    method FindOwned(remote: Remote) returns (gids: set<Gid>)
      requires Valid()
      ensures gids == OwnedFrom(View(), remote) && gids <= byId.Keys
    {
      hide Contents, Ascending;
      gids := set g | g in byId && byId[g].ownerRemote == remote;
    }

    // Host disconnect cleanup: find the victims, then take each out of both dictionaries.
    method DestroyByOwnerRemote(remote: Remote)
      requires Valid()
      modifies this
      ensures Valid() && View() == Lobbies.DestroyByOwnerRemote(old(View()), remote)
      ensures objects == old(objects)
    {
      hide Ascending, Restrict, Contents, KeepLobbies, OwnedFrom;
      var victims := FindOwned(remote);
      Keep(byId.Keys - victims, set p | p in owners && owners[p] in victims && byId[owners[p]].ownerPid == p);
    }

    // The first lobby, in dictionary order, that has the player.
    method FindContaining(pid: Pid) returns (found: Option<Gid>)
      requires Valid()
      ensures found == FirstWith(View(), View().order, pid)
    {
      for i := 0 to |order|
        invariant FirstWith(View(), order, pid) == FirstWith(View(), order[i..], pid)
      {
        assert order[i] in order;
        assert order[i..][1..] == order[i + 1..];
        if exists p :: p in byId[order[i]].participants && p.pid == pid {
          assert pid in Pids(byId[order[i]].participants);
          return Some(order[i]);
        }
        assert pid !in Pids(byId[order[i]].participants);
      }
      found := None;
    }
  }
}
