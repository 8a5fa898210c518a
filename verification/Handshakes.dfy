/**
  Connections coming up: which step makes a connection established, who it then
  belongs to, and the bytes it is answered with.
*/
module Handshakes {
  import opened Options
  import opened Bytes
  import opened Connections
  import opened RmcCodec
  import opened Transport
  import opened Packets
  import Kerberos

  // The token of a proven CONNECT: a length and the client's check value plus one.
  predicate Confirms(token: seq<Byte>, check: Word) {
    |token| == 8 && U32(token, 0) == 4 && U32(token, 4) == (check + 1) % 0x1_0000_0000
  }

  // The packet completes the opening of connection `i`, its sender having seen the SYN's answer.
  predicate Completes(n: Net, remote: Address, p: Packet, i: nat) {
    p.kind == CONNECT && remote in n.table && n.table[remote] == i && i < |n.links|
    && n.links[i].phase == SYN_RECV && p.signature == n.links[i].serverSig
  }

  // What the packet's payload says, where the port asks for a proof.
  function Incoming(k: Config, p: Packet): Option<seq<Byte>> {
    if k.handshake.None? || p.payload == [] then None else k.unwrap(p.payload)
  }

  // The connection afterwards, but for whose it is.
  function Opened(l: Link, p: Packet): Link {
    l.(phase := ESTABLISHED, clientSessionId := p.sessionId, clientSig := p.connSig)
  }

  // A completing packet opens the connection in any case. If its payload is a ticket and a request that prove who
  // sends it, the connection gets the ticket's session key and pid and the answer confirms the check value;
  // otherwise it stays anonymous and the answer is empty.
  lemma ConnectOnWire(k: Config, n: Net, remote: Address, p: Packet, sig: seq<Byte>, session: nat, i: nat)
    returns (token: seq<Byte>)
    requires Completes(n, remote, p, i)
    ensures var n' := Next(k, n, Receive(remote, p, sig, session)); var l := Opened(n.links[i], p);
            && n'.log == n.log + [Sent(i, ConnectAck(p.packetId, token))]
            && match Incoming(k, p)
               case None => token == [] && n' == n.(links := n.links[i := l], log := n'.log)
               case Some(incoming) =>
                 match Kerberos.Verify(k.handshake.value, incoming)
                 case None => token == [] && n' == n.(links := n.links[i := l], log := n'.log)
                 case Some(h) =>
                   Confirms(token, h.check)
                   && n' == n.(links := n.links[i := l.(sessionKey := h.session, userPid := h.pid)], log := n'.log)
  {
    hide Kerberos.Verify, U32, Le32;
    token := ConnectToken(k, p.payload);
    if Incoming(k, p).Some? && Kerberos.Verify(k.handshake.value, Incoming(k, p).value).Some? {
      TokenBytes(Kerberos.Verify(k.handshake.value, Incoming(k, p).value).value.check);
    }
  }

  lemma TokenBytes(check: Word)
    ensures Confirms(Kerberos.AckToken(check), check)
  {
    var next: Word := (check + 1) % 0x1_0000_0000;
    U32OfLe32([], 4, Le32(next));
    U32OfLe32(Le32(4), next, []);
    assert Kerberos.AckToken(check) == [] + Le32(4) + Le32(next) == Le32(4) + Le32(next) + [];
  }

  // From the ticket to the wire: a client that got a 98-byte cipher for the authentication service, opens it and
  // sends ticket and sealed request with its check value in a completing packet is answered check + 1, and its
  // connection carries exactly the session key of its cipher and its pid.
  lemma TicketToToken(k: Config, n: Net, remote: Address, p: Packet, sig: seq<Byte>, freshSession: nat, i: nat,
                      client: Word, session: Kerberos.Digest, noise: nat -> Byte, claimed: Word, cid: Word, check: Word)
    returns (token: seq<Byte>)
    requires Completes(n, remote, p, i) && k.handshake.Some? && p.payload != []
    requires var c := k.handshake.value;
             var got := Kerberos.OpenCipher(c, client, Kerberos.KerbCipher(c, client, 2, 98, session, noise).value);
             got.Some? && |got.value.2| < 0x1_0000_0000 &&
             k.unwrap(p.payload)
             == Some(Kerberos.ConnectBytes(got.value.2,
                                           Kerberos.Seal(c, session, Kerberos.ReqdPlain(claimed, cid, check))))
    ensures var n' := Next(k, n, Receive(remote, p, sig, freshSession));
            && n'.log == n.log + [Sent(i, ConnectAck(p.packetId, token))]
            && |token| == 8 && U32(token, 0) == 4 && U32(token, 4) == (check + 1) % 0x1_0000_0000
            && i < |n'.links| && n'.links[i].phase == ESTABLISHED
            && n'.links[i].sessionKey == session && n'.links[i].userPid == client
  {
    hide Kerberos.Verify, Kerberos.OpenCipher, Kerberos.KerbCipher, Kerberos.Seal, Kerberos.ConnectBytes, U32, Next;
    Kerberos.TicketToConnect(k.handshake.value, client, session, noise, claimed, cid, check);
    token := ConnectOnWire(k, n, remote, p, sig, freshSession, i);
  }

  // ---- over all steps ------------------------------------------------------------------------------

  // A connection becomes established in a step exactly if the step is a completing packet for it.
  lemma EstablishedIff(k: Config, n: Net, s: Step, i: nat)
    requires i < |n.links| && n.links[i].phase != ESTABLISHED
    ensures i < |Next(k, n, s).links|
    ensures Next(k, n, s).links[i].phase == ESTABLISHED <==> s.Receive? && Completes(n, s.remote, s.packet, i)
  {
    hide HandleData, ConnectToken, Proof, SendPushes, Told;
    match s
    case ReapIdle(stale) => ReapLinks(n, stale);
    case TimerPushes(pushes) => PushesOnly(Logged(n, Expired), pushes);
    case Receive(remote, p, sig, session) =>
      if p.kind == DATA && remote in n.table && n.table[remote] < |n.links| {
        DataLinks(k, n, n.table[remote], p);
      }
  }

  // What data does to the connections: text, acknowledgements and counters, never who or in which phase.
  lemma DataLinks(k: Config, n: Net, j: nat, p: Packet)
    requires j < |n.links|
    ensures SamePeople(n, HandleData(k, n, j, p))
  {
    hide OnPayload, Told;
    if n.links[j].phase == ESTABLISHED && !(p.ack && p.payload == []) {
      var n1 := Acknowledged(n, j, p);
      if p.payload != [] && k.unwrap(p.payload).Some? {
        var (n2, whole) := Gathered(n1, j, k.unwrap(p.payload).value, p.fragmentId == 0);
        if whole.Some? {
          PayloadLinks(k, n2, j, whole.value);
        }
      }
    }
  }

  lemma PayloadLinks(k: Config, n: Net, j: nat, body: seq<Byte>)
    requires j < |n.links|
    ensures SamePeople(n, OnPayload(k, n, j, body))
  {
    hide Respond, Decode, Told;
    if Decode(body).Some? && Decode(body).value.Request? {
      RespondsOnly(k, Logged(n, Delivered(j, body)), j, Decode(body).value);
    }
  }

  predicate SamePeople(n: Net, n': Net) {
    && |n'.links| == |n.links| && n'.table == n.table
    && forall j | 0 <= j < |n.links| ::
         n'.links[j] == n.links[j].(fragments := n'.links[j].fragments, nextId := n'.links[j].nextId,
                                    lastClientPid := n'.links[j].lastClientPid)
  }

  lemma {:induction false} ReapLinks(n: Net, stale: seq<Address>)
    ensures Reap(n, stale).links == n.links
    ensures forall r :: r in Reap(n, stale).table <==> r in n.table && r !in stale
    ensures forall r | r in Reap(n, stale).table :: Reap(n, stale).table[r] == n.table[r]
    decreases stale
  {
    if stale != [] {
      ReapLinks(n.(table := n.table - {stale[0]}, log := n.log + [Ended(stale[0])]), stale[1..]);
    }
  }

  // The table names a connection for a remote exactly from its SYN until it disconnects or is reaped; a new SYN
  // names a new connection, anonymous and with everything still to come.
  lemma TableIff(k: Config, n: Net, s: Step, r: Address)
    ensures var n' := Next(k, n, s);
            && (r in n'.table <==>
                  (s.Receive? && s.remote == r && s.packet.kind == SYN)
                  || (r in n.table && !(s.Receive? && s.remote == r && s.packet.kind == DISCONNECT)
                      && !(s.ReapIdle? && r in s.stale)))
            && (r in n'.table ==>
                  if s.Receive? && s.remote == r && s.packet.kind == SYN then
                    && n'.table[r] == |n.links| && |n'.links| == |n.links| + 1
                    && n'.links[|n.links|]
                        == Link(r, SYN_RECV, 0, s.freshSession, [0, 0, 0, 0], s.freshSig, 1, 0, [], 0, [])
                    && n'.log == n.log + [Sent(|n.links|, SynAck(s.freshSig))]
                  else
                    r in n.table && n'.table[r] == n.table[r])
  {
    hide HandleData, ConnectToken, Connected, SendPushes, Told;
    match s
    case ReapIdle(stale) => ReapLinks(n, stale);
    case TimerPushes(pushes) => PushesOnly(Logged(n, Expired), pushes);
    case Receive(remote, p, sig, session) =>
      if p.kind == DATA && remote in n.table && n.table[remote] < |n.links| {
        DataLinks(k, n, n.table[remote], p);
      }
  }

  // The rest of what can arrive. A ping is answered if it asks for it; a CONNECT that does not complete an opening,
  // an unknown kind and anything from an unknown remote do nothing.
  lemma OtherPackets(k: Config, n: Net, remote: Address, p: Packet, sig: seq<Byte>, session: nat)
    ensures var n' := Next(k, n, Receive(remote, p, sig, session));
            && (p.kind == PING ==>
                  n' == if remote in n.table && n.table[remote] < |n.links| && p.needAck
                        then n.(log := n.log + [Sent(n.table[remote], PingAck(p.packetId))]) else n)
            && (p.kind == CONNECT && (forall i :: !Completes(n, remote, p, i)) ==> n' == n)
            && (p.kind == OTHER ==> n' == n)
            && (p.kind != SYN && p.kind != DISCONNECT && remote !in n.table ==> n' == n)
  {
    hide HandleData, Connected, ConnectToken;
    if p.kind == CONNECT && remote in n.table {
      assert Completes(n, remote, p, n.table[remote])
        <==> n.table[remote] < |n.links| && n.links[n.table[remote]].phase == SYN_RECV
             && p.signature == n.links[n.table[remote]].serverSig;
    }
  }

  // A disconnect is acknowledged and closes the connection if there is one; the close hooks run and the entry goes
  // in any case.
  lemma DisconnectEnds(k: Config, n: Net, remote: Address, p: Packet, sig: seq<Byte>, session: nat)
    requires p.kind == DISCONNECT
    ensures var n' := Next(k, n, Receive(remote, p, sig, session));
            if remote in n.table && n.table[remote] < |n.links| then
              var i := n.table[remote];
              n' == n.(links := n.links[i := n.links[i].(phase := CLOSED)], table := n.table - {remote},
                       log := n.log + [Sent(i, DisconnectAck(p.packetId)), Ended(remote)])
            else
              n' == n.(table := n.table - {remote}, log := n.log + [Ended(remote)])
  {
    if remote in n.table && n.table[remote] < |n.links| {
      var ack := Sent(n.table[remote], DisconnectAck(p.packetId));
      assert n.log + [ack] + [Ended(remote)] == n.log + [ack, Ended(remote)];
    }
  }

  // Reaping runs the hooks of each stale remote in turn, and nothing is sent.
  lemma {:induction false} ReapEnds(n: Net, stale: seq<Address>) returns (es: seq<Event>)
    ensures Reap(n, stale) == n.(table := n.table - (set r | r in stale), log := n.log + es)
    ensures |es| == |stale| && forall i | 0 <= i < |stale| :: es[i] == Ended(stale[i])
    decreases stale
  {
    es := [];
    assert n.log + [] == n.log;
    if stale != [] {
      var n1 := n.(table := n.table - {stale[0]}, log := n.log + [Ended(stale[0])]);
      var rest := ReapEnds(n1, stale[1..]);
      es := [Ended(stale[0])] + rest;
      assert n.log + es == n1.log + rest;
      assert (set r | r in stale) == {stale[0]} + set r | r in stale[1..];
    } else {
      assert n.table - (set r | r in stale) == n.table;
    }
  }
}
