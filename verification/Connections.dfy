/**
  Per-client PRUDP connection state (prudp/connection.py).
*/
module Connections {
  import opened Bytes

  datatype Phase = INITIAL | SYN_RECV | ESTABLISHED | CLOSED

  datatype Address = Address(host: string, port: nat)

  class Connection {
    const remote: Address
    var phase: Phase
    var clientSessionId: nat
    var serverSessionId: nat
    var clientSig: seq<Byte>
    var serverSig: seq<Byte>
    var nextId: nat                  // packet id of the next reliable DATA we originate
    var lastClientPid: nat           // highest reliable packet id seen from the client
    var sessionKey: seq<Byte>
    var userPid: Word
    var rvConnectionId: Word         // assigned by RegisterEx
    var stationUrls: seq<string>
    var fragments: seq<Byte>         // bodies of a message whose last fragment is still to come
    var lastActivity: nat

    // `Connection.new`, the random signature and session id drawn by the caller.
    constructor (remote: Address, serverSig: seq<Byte>, serverSessionId: nat, now: nat)
      ensures this.remote == remote && phase == INITIAL && nextId == 1 && lastClientPid == 0
      ensures clientSessionId == 0 && clientSig == [0, 0, 0, 0] && this.serverSessionId == serverSessionId
      ensures this.serverSig == serverSig && sessionKey == [] && userPid == 0 && fragments == [] && lastActivity == now
      ensures rvConnectionId == 0 && stationUrls == []
    {
      this.remote := remote;
      phase := INITIAL;
      clientSessionId, this.serverSessionId := 0, serverSessionId;
      clientSig, this.serverSig := [0, 0, 0, 0], serverSig;
      nextId, lastClientPid := 1, 0;
      sessionKey, userPid := [], 0;
      rvConnectionId, stationUrls := 0, [];
      fragments := [];
      lastActivity := now;
    }

    method Touch(now: nat)
      modifies `lastActivity
      ensures lastActivity == now
    {
      lastActivity := now;
    }
  }
}
