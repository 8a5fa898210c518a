/**
  The PRUDP listener and the RMC dispatcher as the objects they are
  (prudp/server.py, rmc/dispatcher.py). Every method is proved to do to the
  fields what the step machine of `Transport` does to values. Datagrams sent
  are the entries of `log`; handlers are the functions of the routing table.
*/
module Prudp {
  import opened Options
  import opened Bytes
  import opened Connections
  import opened RmcCodec
  import Kerberos
  import T = Transport

  ghost function LinkOf(c: Connection): T.Link
    reads c
  {
    T.Link(c.remote, c.phase, c.clientSessionId, c.serverSessionId, c.clientSig, c.serverSig,
           c.nextId, c.lastClientPid, c.sessionKey, c.userPid, c.fragments)
  }

  ghost function LinksOf(cs: seq<Connection>): (r: seq<T.Link>)
    reads cs
    ensures |r| == |cs| && forall i | 0 <= i < |cs| :: r[i] == LinkOf(cs[i])
  {
    if cs == [] then [] else LinksOf(cs[..|cs| - 1]) + [LinkOf(cs[|cs| - 1])]
  }

  predicate AllDifferent(cs: seq<Connection>) {
    forall i, j | 0 <= i < j < |cs| :: cs[i] != cs[j]
  }

  class PRUDPServer {
    const config: T.Config
    var connections: map<Address, Connection>
    var made: seq<Connection>             // every connection object so far; lobbies may still refer to replaced ones
    var place: map<Address, nat>          // where in `made` the current ones are
    ghost var log: seq<T.Event>

    ghost predicate Valid()
      reads this, made
    {
      && AllDifferent(made)
      && connections.Keys == place.Keys
      && forall r | r in place :: place[r] < |made| && made[place[r]] == connections[r] && connections[r].remote == r
    }

    // The port's half of the machine's state.
    ghost function View(): T.Net
      reads this, made
    {
      T.Net(LinksOf(made), place, 0, 0, log)
    }

    constructor (config: T.Config)
      ensures Valid() && View() == T.QUIET.(pushId := 0) && made == [] && this.config == config
    {
      this.config := config;
      connections, made, place, log := map[], [], map[], [];
    }

    method HandleSyn(remote: Address, sig: seq<Byte>, session: nat, now: nat)
      requires Valid()
      modifies this
      ensures Valid() && |made| == |old(made)| + 1 && made[..|old(made)|] == old(made) && fresh(made[|old(made)|])
      ensures View() == T.HandleSyn(old(View()), remote, sig, session)
    {
      hide LinksOf;
      var conn := Greeted(remote, sig, session, now);
      Enter(conn);
      SendAt(conn, T.SynAck(sig), |made| - 1);
      assert made[..|old(made)|] == old(made);
    }

    static method Greeted(remote: Address, sig: seq<Byte>, session: nat, now: nat) returns (conn: Connection)
      ensures fresh(conn) && conn.lastActivity == now
      ensures LinkOf(conn) == T.Link(remote, SYN_RECV, 0, session, [0, 0, 0, 0], sig, 1, 0, [], 0, [])
    {
      conn := new Connection(remote, sig, session, now);
      conn.phase := SYN_RECV;
    }

    // The table entry of the connection's remote is replaced.
    method Enter(conn: Connection)
      requires Valid() && conn !in made
      modifies `connections, `place, `made
      ensures Valid() && made == old(made) + [conn]
      ensures View() == old(View()).(links := old(View()).links + [LinkOf(conn)],
                                     table := old(View()).table[conn.remote := |old(made)|])
    {
      hide LinksOf;
      ghost var links := LinksOf(made);
      connections, place, made := connections[conn.remote := conn], place[conn.remote := |made|], made + [conn];
      assert LinksOf(made) == links + [LinkOf(conn)];
    }

    // The connection becomes established; the handshake may identify it and yields the token.
    method Establish(conn: Connection, p: T.Packet, now: nat) returns (token: seq<Byte>)
      modifies conn
      ensures LinkOf(conn) == T.Connected(config, old(LinkOf(conn)), p) && token == T.ConnectToken(config, p.payload)
    {
      hide Kerberos.Verify, Kerberos.AckToken;
      conn.clientSessionId := p.sessionId;
      conn.clientSig := p.connSig;
      conn.phase := ESTABLISHED;
      conn.Touch(now);
      token := [];
      if config.handshake.Some? && p.payload != [] {
        var incoming := config.unwrap(p.payload);
        if incoming.Some? {
          var ack := Kerberos.HandleConnectAck(config.handshake.value, conn, incoming.value);
          token := if ack.Some? then ack.value else [];
        }
      }
    }

    method HandleConnect(remote: Address, p: T.Packet, now: nat)
      requires Valid()
      modifies this`log, made
      ensures Valid()
      ensures View() == if remote in place then T.HandleConnect(config, old(View()), place[remote], p) else old(View())
    {
      hide LinksOf, T.Connected, T.ConnectToken;
      if remote !in connections { return; }
      var conn := connections[remote];
      ghost var i := place[remote];
      ghost var links := LinksOf(made);
      if conn.phase != SYN_RECV || p.signature != conn.serverSig { return; }
      var token := Establish(conn, p, now);
      assert LinksOf(made) == links[i := LinkOf(conn)];
      SendAt(conn, T.ConnectAck(p.packetId, token), i);
    }

    // `_send`: the datagram goes out on a connection, wherever that stands in `made`; the log entry is what
    // is left of it.
    method SendAt(conn: Connection, out: T.Out, ghost i: nat)
      requires Valid() && i < |made| && made[i] == conn
      modifies `log
      ensures Valid() && log == old(log) + [T.Sent(i, out)]
    {
      log := log + [T.Sent(i, out)];
    }

    // A reliable packet is acknowledged, and remembered if its id is the highest yet.
    method Acknowledge(conn: Connection, p: T.Packet, ghost i: nat)
      requires Valid() && i < |made| && made[i] == conn
      modifies this`log, conn`lastClientPid
      ensures Valid() && View() == T.Acknowledged(old(View()), i, p)
    {
      hide LinksOf;
      if p.reliable {
        ghost var links := LinksOf(made);
        SendAt(conn, T.DataAck(p.packetId), i);
        conn.lastClientPid := if conn.lastClientPid < p.packetId then p.packetId else conn.lastClientPid;
        assert LinksOf(made) == links[i := LinkOf(conn)];
      }
    }

    // A plaintext is buffered, or completes what was buffered.
    method Gather(conn: Connection, plain: seq<Byte>, final: bool, ghost i: nat) returns (body: Option<seq<Byte>>)
      requires Valid() && i < |made| && made[i] == conn
      modifies this`log, conn`fragments
      ensures Valid() && (View(), body) == T.Gathered(old(View()), i, plain, final)
    {
      hide LinksOf;
      ghost var links := LinksOf(made);
      log := log + [T.Took(i, plain, final)];
      if !final {
        conn.fragments := conn.fragments + plain;
        assert LinksOf(made) == links[i := LinkOf(conn)];
        return None;
      }
      body := Some(plain);
      if conn.fragments != [] {
        body := Some(conn.fragments + plain);
        conn.fragments := [];
      }
      assert [] + plain == plain;
      assert LinksOf(made) == links[i := LinkOf(conn)];
    }

    // `_handle_data` up to the call of `on_payload`, whose argument it returns.
    method HandleData(remote: Address, p: T.Packet, now: nat) returns (body: Option<seq<Byte>>)
      requires Valid()
      modifies this`log, made
      ensures Valid()
      ensures remote !in place ==> body.None? && View() == old(View())
      ensures remote in place ==> (View(), body) == T.Received(config, old(View()), place[remote], p)
    {
      hide LinksOf, T.Acknowledged, T.Gathered;
      if remote !in connections { return None; }
      var conn := connections[remote];
      ghost var i := place[remote];
      if conn.phase != ESTABLISHED { return None; }
      ghost var links := LinksOf(made);
      conn.Touch(now);
      assert LinksOf(made) == links;
      if p.ack && p.payload == [] { return None; }
      Acknowledge(conn, p, i);
      if p.payload == [] { return None; }
      var plain := config.unwrap(p.payload);
      if plain.None? { return None; }
      body := Gather(conn, plain.value, p.fragmentId == 0, i);
    }

    method HandlePing(remote: Address, p: T.Packet, now: nat)
      requires Valid()
      modifies this`log, made
      ensures Valid()
      ensures View() == if remote in place && p.needAck then
                T.Logged(old(View()), T.Sent(place[remote], T.PingAck(p.packetId)))
                        else old(View())
    {
      hide LinksOf;
      if remote !in connections { return; }
      ghost var links := LinksOf(made);
      connections[remote].Touch(now);
      assert LinksOf(made) == links;
      if p.needAck { SendAt(connections[remote], T.PingAck(p.packetId), place[remote]); }
    }

    // The close hooks run for any remote, known or not; then the entry goes.
    method Forget(remote: Address)
      requires Valid()
      modifies this
      ensures Valid() && made == old(made)
      ensures View() == old(View()).(table := old(View()).table - {remote}, log := old(View()).log + [T.Ended(remote)])
    {
      log := log + [T.Ended(remote)];
      connections := connections - {remote};
      place := place - {remote};
    }

    method HandleDisconnect(remote: Address, p: T.Packet)
      requires Valid()
      modifies this, made
      ensures Valid() && made == old(made)
      ensures View() == T.HandleDisconnect(old(View()), remote, p)
    {
      hide LinksOf;
      if remote in connections {
        ghost var links := LinksOf(made);
        SendAt(connections[remote], T.DisconnectAck(p.packetId), place[remote]);
        connections[remote].phase := CLOSED;
        assert LinksOf(made) == links[place[remote] := LinkOf(connections[remote])];
      }
      Forget(remote);
    }

    ghost predicate Stale(remote: Address, now: nat, timeout: nat)
      reads this, connections.Values
    {
      remote in connections && now - connections[remote].lastActivity > timeout
    }

    // The remotes not heard from for longer than `timeout`, each once.
    method StaleRemotes(now: nat, timeout: nat) returns (stale: seq<Address>)
      requires Valid()
      ensures forall r :: r in stale <==> Stale(r, now, timeout)
      ensures forall i, j | 0 <= i < j < |stale| :: stale[i] != stale[j]
    {
      var todo := connections.Keys;
      stale := [];
      while todo != {}
        invariant todo <= connections.Keys
        invariant forall r :: r in stale <==> r !in todo && Stale(r, now, timeout)
        invariant forall i, j | 0 <= i < j < |stale| :: stale[i] != stale[j]
      {
        var remote :| remote in todo;
        if now - connections[remote].lastActivity > timeout {
          stale := stale + [remote];
        }
        todo := todo - {remote};
      }
    }

    // `reap_idle`: the stale connections, in some order, are forgotten one by one.
    method ReapIdle(now: nat, timeout: nat) returns (stale: seq<Address>)
      requires Valid()
      modifies this
      ensures Valid() && made == old(made)
      ensures forall r :: r in stale <==> old(Stale(r, now, timeout))
      ensures forall i, j | 0 <= i < j < |stale| :: stale[i] != stale[j]
      ensures View() == T.Reap(old(View()), stale)
    {
      hide LinksOf;
      stale := StaleRemotes(now, timeout);
      ghost var start := View();
      for j := 0 to |stale|
        invariant Valid() && made == old(made)
        invariant T.Reap(View(), stale[j..]) == T.Reap(start, stale)
      {
        assert stale[j..][0] == stale[j] && stale[j..][1..] == stale[j + 1..];
        Forget(stale[j]);
      }
    }

    // `send_reliable_data`: the next id, then count up.
    method SendReliableData(conn: Connection, m: Message, ghost i: nat)
      requires Valid() && i < |made| && made[i] == conn
      modifies this`log, conn`nextId
      ensures Valid() && View() == T.SendData(old(View()), i, m)
    {
      hide LinksOf;
      ghost var links := LinksOf(made);
      SendAt(conn, T.Data(conn.nextId, m), i);
      conn.nextId := conn.nextId + 1;
      assert LinksOf(made) == links[i := LinkOf(conn)];
    }
  }

  class RMCDispatcher {
    const prudp: PRUDPServer
    var serverCallId: nat
    var calls: nat

    ghost predicate Valid()
      reads this, prudp, prudp.made
    {
      prudp.Valid()
    }

    // The whole of the machine's state.
    ghost function View(): T.Net
      reads this, prudp, prudp.made
    {
      prudp.View().(pushId := serverCallId, calls := calls)
    }

    constructor (prudp: PRUDPServer)
      requires prudp.Valid()
      ensures this.prudp == prudp && Valid() && View() == prudp.View().(pushId := T.FIRST_PUSH_ID, calls := 0)
    {
      this.prudp := prudp;
      serverCallId, calls := T.FIRST_PUSH_ID, 0;
    }

    // `send_request`: false where the message cannot be encoded and the call raises.
    method SendRequest(conn: Connection, push: T.Push, ghost i: nat) returns (ok: bool)
      requires Valid() && i < |prudp.made| && prudp.made[i] == conn
      modifies this`serverCallId, prudp`log, conn`nextId
      ensures Valid() && calls == old(calls)
      ensures var m := Request(push.proto, old(serverCallId), push.method_, push.params);
              var n1 := old(View()).(pushId := old(serverCallId) + 1);
              ok == Encode(m).Some? && View() == if ok then T.SendData(n1, i, m) else n1
    {
      hide LinksOf;
      var m := Request(push.proto, serverCallId, push.method_, push.params);
      serverCallId := serverCallId + 1;
      if Encode(m).None? { return false; }
      prudp.SendReliableData(conn, m, i);
      ok := true;
    }

    // The same for a push that names its connection by its place.
    method SendTo(push: T.Push) returns (ok: bool)
      requires Valid()
      modifies this`serverCallId, prudp`log, prudp.made
      ensures Valid() && calls == old(calls)
      ensures (View(), ok) == T.SendPush(old(View()), push)
    {
      hide LinksOf;
      if push.link >= |prudp.made| {
        serverCallId := serverCallId + 1;
        return false;
      }
      ok := SendRequest(prudp.made[push.link], push, push.link);
    }

    // The pushes of one handler or timer, up to the first that raises.
    method SendPushes(pushes: seq<T.Push>) returns (ok: bool)
      requires Valid()
      modifies this`serverCallId, prudp`log, prudp.made
      ensures Valid() && calls == old(calls)
      ensures (View(), ok) == T.SendPushes(old(View()), pushes)
    {
      hide LinksOf, T.SendPush;
      ghost var start := View();
      for j := 0 to |pushes|
        invariant Valid() && calls == old(calls)
        invariant T.SendPushes(View(), pushes[j..]) == T.SendPushes(start, pushes)
      {
        assert pushes[j..][0] == pushes[j] && pushes[j..][1..] == pushes[j + 1..];
        var sent := SendTo(pushes[j]);
        if !sent { return false; }
      }
      ok := true;
    }

    // `on_payload`
    method OnPayload(conn: Connection, body: seq<Byte>, i: nat)
      requires Valid() && i < |prudp.made| && prudp.made[i] == conn
      modifies this, prudp`log, prudp.made
      ensures Valid() && View() == T.OnPayload(prudp.config, old(View()), i, body)
    {
      hide LinksOf, T.Respond, Decode;
      prudp.log := prudp.log + [T.Delivered(i, body)];
      var decoded := Decode(body);
      if decoded.None? || !decoded.value.Request? { return; }
      Respond(conn, decoded.value, i);
    }

    // The rest of `on_payload`: look the handler up, run it, send the one response.
    method Respond(conn: Connection, request: Message, i: nat)
      requires Valid() && i < |prudp.made| && prudp.made[i] == conn && request.Request?
      modifies this, prudp`log, prudp.made
      ensures Valid() && View() == T.Respond(prudp.config, old(View()), i, request)
    {
      hide LinksOf, T.SendPushes, T.SendResponse, Encode;
      var key := (request.proto, request.method_);
      if key !in prudp.config.handlers {
        prudp.SendReliableData(conn, ResponseError(request.proto, request.callId, T.ERR_NOT_IMPLEMENTED), i);
        return;
      }
      var outcome := prudp.config.handlers[key](calls, i, request);
      calls := calls + 1;
      ghost var start := View();
      var ok := SendPushes(outcome.pushes);
      assert (View(), ok) == T.SendPushes(start, outcome.pushes);
      SendResponse(conn, request, if ok then outcome.response else None, i);
    }

    method SendResponse(conn: Connection, request: Message, response: Option<Message>, ghost i: nat)
      requires Valid() && i < |prudp.made| && prudp.made[i] == conn
      modifies prudp`log, conn`nextId
      ensures Valid() && View() == T.SendResponse(old(View()), i, request, response)
    {
      hide LinksOf, Encode;
      if response.None? {
        prudp.SendReliableData(conn, ResponseError(request.proto, request.callId, T.ERR_EXCEPTION), i);
        return;
      }
      if Encode(response.value).None? { return; }
      prudp.SendReliableData(conn, response.value, i);
    }

    // The transport's part of a DATA packet, seen with the dispatcher's counters.
    method Collect(remote: Address, p: T.Packet, now: nat) returns (body: Option<seq<Byte>>)
      requires Valid() && remote in prudp.place
      modifies prudp`log, prudp.made
      ensures Valid() && (View(), body) == T.Received(prudp.config, old(View()), prudp.place[remote], p)
    {
      hide LinksOf, T.Received, T.HandleConnect, T.HandleData, AllDifferent, LinkOf;
      T.CountersApart(prudp.config, prudp.View(), prudp.place[remote], p, serverCallId, calls);
      body := prudp.HandleData(remote, p, now);
    }

    // A DATA packet, with `on_payload` called where `_handle_data` calls it.
    method ReceiveData(remote: Address, p: T.Packet, now: nat)
      requires Valid()
      modifies this, prudp`log, prudp.made
      ensures Valid()
      ensures View() == if remote in prudp.place then T.HandleData(prudp.config, old(View()), prudp.place[remote], p)
                        else old(View())
    {
      hide LinksOf, T.HandleData, T.Received, T.OnPayload;
      if remote !in prudp.connections { return; }
      T.HandleDataParts(prudp.config, View(), prudp.place[remote], p);
      var body := Collect(remote, p, now);
      if body.Some? {
        OnPayload(prudp.connections[remote], body.value, prudp.place[remote]);
      }
    }

    method ReceiveConnect(remote: Address, p: T.Packet, now: nat)
      requires Valid()
      modifies prudp`log, prudp.made
      ensures Valid()
      ensures View() == if remote in prudp.place then T.HandleConnect(prudp.config, old(View()), prudp.place[remote], p)
                        else old(View())
    {
      hide LinksOf, T.HandleConnect, T.Received;
      if remote in prudp.place {
        T.CountersApart(prudp.config, prudp.View(), prudp.place[remote], p, serverCallId, calls);
      }
      prudp.HandleConnect(remote, p, now);
    }

    // `_handle` for one packet of a datagram.
    method HandlePacket(remote: Address, p: T.Packet, sig: seq<Byte>, session: nat, now: nat)
      requires Valid()
      modifies this, prudp, prudp.made
      ensures Valid() && View() == T.HandlePacket(prudp.config, old(View()), remote, p, sig, session)
    {
      hide LinksOf, T.HandleData, T.HandleConnect, T.HandleSyn, T.HandleDisconnect;
      T.CountersApartTable(prudp.View(), remote, p, sig, session, serverCallId, calls);
      match p.kind
      case SYN => prudp.HandleSyn(remote, sig, session, now);
      case CONNECT => ReceiveConnect(remote, p, now);
      case DATA => ReceiveData(remote, p, now);
      case PING => prudp.HandlePing(remote, p, now);
      case DISCONNECT => prudp.HandleDisconnect(remote, p);
      case OTHER =>
    }
  }
}
