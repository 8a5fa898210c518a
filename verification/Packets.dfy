/**
  What goes in at a port and what comes out, told by packets and messages alone:
  which bodies a connection's DATA packets make, in which order, and what each of
  them is answered with.
*/
module Packets {
  import opened Bytes
  import opened Numbers
  import opened Connections
  import opened RmcCodec
  import opened Transport

  // ---- the packets of a connection ---------------------------------------------------------

  // The step brings a DATA packet for connection `i`, which is established.
  predicate ArrivesFor(n: Net, s: Step, i: nat) {
    s.Receive? && s.packet.kind == DATA && s.remote in n.table && n.table[s.remote] == i
    && i < |n.links| && n.links[i].phase == ESTABLISHED
  }

  // All of them over a run, in order.
  function Arrivals(k: Config, steps: seq<Step>, i: nat): seq<Packet> {
    if steps == [] then []
    else
      var before, s := steps[..|steps| - 1], steps[|steps| - 1];
      Arrivals(k, before, i) + if ArrivesFor(Run(k, QUIET, before), s, i) then [s.packet] else []
  }

  // A piece of text and whether it is the last of its message.
  type Piece = (seq<Byte>, bool)

  // What is readable in the packets: the payload out of its wrapping, the last piece being numbered 0.
  function Pieces(k: Config, ps: seq<Packet>): seq<Piece> {
    if ps == [] then []
    else
      var p := ps[|ps| - 1];
      Pieces(k, ps[..|ps| - 1])
      + if p.payload != [] && k.unwrap(p.payload).Some? then [(k.unwrap(p.payload).value, p.fragmentId == 0)] else []
  }

  // The pieces since the last complete message, joined.
  function Unfinished(xs: seq<Piece>): seq<Byte> {
    if xs == [] || xs[|xs| - 1].1 then [] else Unfinished(xs[..|xs| - 1]) + xs[|xs| - 1].0
  }

  // The messages: the pieces joined, cut after each last one.
  function Messages(xs: seq<Piece>): seq<seq<Byte>> {
    if xs == [] then []
    else
      var init, x := xs[..|xs| - 1], xs[|xs| - 1];
      Messages(init) + if x.1 then [Unfinished(init) + x.0] else []
  }

  // The ids that are acknowledged: those of reliable packets that are not bare acknowledgements themselves.
  function ToAcknowledge(ps: seq<Packet>): seq<nat> {
    if ps == [] then []
    else
      var p := ps[|ps| - 1];
      ToAcknowledge(ps[..|ps| - 1]) + if p.reliable && !(p.ack && p.payload == []) then [p.packetId] else []
  }

  function Highest(ids: seq<nat>): nat {
    if ids == [] then 0 else Max(Highest(ids[..|ids| - 1]), ids[|ids| - 1])
  }

  // ---- the log of a connection ----------------------------------------------------------------

  datatype Story = Story(pieces: seq<Piece>, bodies: seq<seq<Byte>>, acks: seq<nat>)

  function Extended(a: Story, i: nat, e: Event): Story {
    match e
    case Took(j, body, final) => if j == i then a.(pieces := a.pieces + [(body, final)]) else a
    case Delivered(j, body) => if j == i then a.(bodies := a.bodies + [body]) else a
    case Sent(j, DataAck(id)) => if j == i then a.(acks := a.acks + [id]) else a
    case _ => a
  }

  // The pieces taken, the bodies delivered and the acknowledgements sent, in order.
  function Told(log: seq<Event>, i: nat): Story {
    if log == [] then Story([], [], []) else Extended(Told(log[..|log| - 1], i), i, log[|log| - 1])
  }

  lemma ToldSnoc(log: seq<Event>, e: Event, i: nat)
    ensures Told(log + [e], i) == Extended(Told(log, i), i, e)
  {
    assert (log + [e])[..|log|] == log;
  }

  predicate Irrelevant(e: Event) { !e.Took? && !e.Delivered? && !(e.Sent? && e.out.DataAck?) }

  // ---- a connection keeps to its packets --------------------------------------------------------

  ghost predicate Agrees(k: Config, n: Net, i: nat, ps: seq<Packet>) {
    var xs := Pieces(k, ps);
    && Told(n.log, i) == Story(xs, Messages(xs), ToAcknowledge(ps))
    && (i < |n.links| ==> n.links[i].fragments == Unfinished(xs)
                          && n.links[i].lastClientPid == Highest(ToAcknowledge(ps)))
    && (i >= |n.links| ==> ps == [])
  }

  // A connection that is not touched, by an event that is not about text.
  lemma AgreesStill(k: Config, n: Net, n': Net, e: Event, i: nat, ps: seq<Packet>)
    requires Agrees(k, n, i, ps) && Irrelevant(e) && n'.log == n.log + [e] && |n'.links| == |n.links|
    requires i < |n.links| ==> n'.links[i].fragments == n.links[i].fragments
                               && n'.links[i].lastClientPid == n.links[i].lastClientPid
    ensures Agrees(k, n', i, ps)
  {
    hide Told, Pieces, Messages, Unfinished, ToAcknowledge, Highest;
    ToldSnoc(n.log, e, i);
  }

  // Sending DATA changes counters only.
  ghost predicate OnlySends(n: Net, n': Net) {
    && |n'.links| == |n.links| && n'.table == n.table
    && (forall j | 0 <= j < |n.links| :: n'.links[j] == n.links[j].(nextId := n'.links[j].nextId))
    && (forall i: nat :: Told(n'.log, i) == Told(n.log, i))
  }

  lemma SendsOnly(n: Net, i: nat, m: Message)
    requires i < |n.links|
    ensures OnlySends(n, SendData(n, i, m))
  {
    hide Told;
    forall j: nat ensures Told(SendData(n, i, m).log, j) == Told(n.log, j) {
      ToldSnoc(n.log, Sent(i, Data(n.links[i].nextId, m)), j);
    }
  }

  lemma {:induction false} PushesOnly(n: Net, pushes: seq<Push>)
    ensures OnlySends(n, SendPushes(n, pushes).0)
    decreases pushes
  {
    hide Told, Encode, SendData;
    if pushes != [] {
      var p := pushes[0];
      var m, n1 := Request(p.proto, n.pushId, p.method_, p.params), n.(pushId := n.pushId + 1);
      if p.link < |n.links| && Encode(m).Some? {
        SendsOnly(n1, p.link, m);
        PushesOnly(SendData(n1, p.link, m), pushes[1..]);
      }
    }
  }

  lemma RespondsOnly(k: Config, n: Net, i: nat, request: Message)
    requires i < |n.links| && request.Request?
    ensures OnlySends(n, Respond(k, n, i, request))
  {
    hide Told, Encode, SendPushes, SendData;
    var key := (request.proto, request.method_);
    if key !in k.handlers {
      SendsOnly(n, i, ResponseError(request.proto, request.callId, ERR_NOT_IMPLEMENTED));
    } else {
      var outcome := k.handlers[key](n.calls, i, request);
      var n0 := n.(calls := n.calls + 1);
      var n1 := SendPushes(n0, outcome.pushes).0;
      PushesOnly(n0, outcome.pushes);
      SendsOnly(n1, i, ResponseError(request.proto, request.callId, ERR_EXCEPTION));
      if outcome.response.Some? {
        SendsOnly(n1, i, outcome.response.value);
      }
    }
  }

  lemma AgreesSends(k: Config, n: Net, n': Net, i: nat, ps: seq<Packet>)
    requires Agrees(k, n, i, ps) && OnlySends(n, n')
    ensures Agrees(k, n', i, ps)
  {
    hide Told, Pieces, Messages, Unfinished, ToAcknowledge, Highest;
  }

  lemma PiecesSnoc(k: Config, ps: seq<Packet>, p: Packet)
    ensures Pieces(k, ps + [p]) == Pieces(k, ps)
            + if p.payload != [] && k.unwrap(p.payload).Some? then [(k.unwrap(p.payload).value, p.fragmentId == 0)]
              else []
    ensures ToAcknowledge(ps + [p])
         == ToAcknowledge(ps) + if p.reliable && !(p.ack && p.payload == []) then [p.packetId] else []
  {
    assert (ps + [p])[..|ps|] == ps;
  }

  lemma MessagesSnoc(xs: seq<Piece>, x: Piece)
    ensures Messages(xs + [x]) == Messages(xs) + if x.1 then [Unfinished(xs) + x.0] else []
    ensures Unfinished(xs + [x]) == if x.1 then [] else Unfinished(xs) + x.0
  {
    assert (xs + [x])[..|xs|] == xs;
  }

  lemma HighestSnoc(ids: seq<nat>, id: nat)
    ensures Highest(ids + [id]) == Max(Highest(ids), id)
  {
    assert (ids + [id])[..|ids|] == ids;
  }

  // The packet's own connection.
  lemma AgreesData(k: Config, n: Net, i: nat, p: Packet, ps: seq<Packet>)
    requires Agrees(k, n, i, ps) && i < |n.links| && n.links[i].phase == ESTABLISHED
    ensures Agrees(k, HandleData(k, n, i, p), i, ps + [p])
  {
    hide Told, Pieces, Messages, Unfinished, ToAcknowledge, Highest, OnPayload;
    PiecesSnoc(k, ps, p);
    var xs := Pieces(k, ps);
    if p.ack && p.payload == [] {
      assert xs + [] == xs && ToAcknowledge(ps) + [] == ToAcknowledge(ps);
    } else {
      var n1 := Acknowledged(n, i, p);
      AgreesAck(n, i, p, ToAcknowledge(ps));
      if p.payload != [] && k.unwrap(p.payload).Some? {
        AgreesReassemble(k, n1, i, k.unwrap(p.payload).value, p.fragmentId == 0, xs);
      } else {
        assert xs + [] == xs;
      }
    }
  }

  lemma AgreesAck(n: Net, i: nat, p: Packet, ids: seq<nat>)
    requires i < |n.links| && Told(n.log, i).acks == ids && n.links[i].lastClientPid == Highest(ids)
    ensures var n1, ids1 := Acknowledged(n, i, p), ids + if p.reliable then [p.packetId] else [];
            && Told(n1.log, i) == Told(n.log, i).(acks := ids1) && n1.links[i].lastClientPid == Highest(ids1)
            && |n1.links| == |n.links| && n1.links[i].fragments == n.links[i].fragments
  {
    hide Told, Highest;
    if p.reliable {
      ToldSnoc(n.log, Sent(i, DataAck(p.packetId)), i);
      HighestSnoc(ids, p.packetId);
    } else {
      assert ids + [] == ids;
    }
  }

  lemma AgreesReassemble(k: Config, n: Net, i: nat, body: seq<Byte>, final: bool, xs: seq<Piece>)
    requires i < |n.links| && n.links[i].fragments == Unfinished(xs)
    requires Told(n.log, i).pieces == xs && Told(n.log, i).bodies == Messages(xs)
    ensures var n', xs' := Reassemble(k, n, i, body, final), xs + [(body, final)];
            && Told(n'.log, i) == Told(n.log, i).(pieces := xs', bodies := Messages(xs'))
            && |n'.links| == |n.links| && n'.links[i].fragments == Unfinished(xs')
            && n'.links[i].lastClientPid == n.links[i].lastClientPid
  {
    hide Told, Messages, Unfinished, Respond, Decode;
    var l := n.links[i];
    MessagesSnoc(xs, (body, final));
    ToldSnoc(n.log, Took(i, body, final), i);
    if final {
      var n1 := Logged(n, Took(i, body, true)).(links := n.links[i := l.(fragments := [])]);
      var whole := l.fragments + body;
      ToldSnoc(n1.log, Delivered(i, whole), i);
      if Decode(whole).Some? && Decode(whole).value.Request? {
        RespondsOnly(k, Logged(n1, Delivered(i, whole)), i, Decode(whole).value);
      }
    } else {
      assert Messages(xs) + [] == Messages(xs);
    }
  }

  // Another connection.
  lemma AgreesElsewhere(k: Config, n: Net, j: nat, p: Packet, i: nat, ps: seq<Packet>)
    requires Agrees(k, n, i, ps) && j < |n.links| && j != i
    ensures Agrees(k, HandleData(k, n, j, p), i, ps)
  {
    hide Told, Pieces, Messages, Unfinished, ToAcknowledge, Highest, OnPayload;
    if n.links[j].phase == ESTABLISHED && !(p.ack && p.payload == []) {
      var n1 := Acknowledged(n, j, p);
      ToldSnoc(n.log, Sent(j, DataAck(p.packetId)), i);
      if p.payload != [] && k.unwrap(p.payload).Some? {
        ReassembleElsewhere(k, n1, j, k.unwrap(p.payload).value, p.fragmentId == 0, i);
      }
    }
  }

  lemma ReassembleElsewhere(k: Config, n: Net, j: nat, body: seq<Byte>, final: bool, i: nat)
    requires j < |n.links| && j != i
    ensures var n' := Reassemble(k, n, j, body, final);
            && Told(n'.log, i) == Told(n.log, i) && |n'.links| == |n.links|
            && (i < |n.links| ==> n'.links[i] == n.links[i].(nextId := n'.links[i].nextId))
  {
    hide Told, Respond, Decode;
    var l := n.links[j];
    ToldSnoc(n.log, Took(j, body, final), i);
    if final {
      var n1 := Logged(n, Took(j, body, true)).(links := n.links[j := l.(fragments := [])]);
      var whole := l.fragments + body;
      ToldSnoc(n1.log, Delivered(j, whole), i);
      if Decode(whole).Some? && Decode(whole).value.Request? {
        RespondsOnly(k, Logged(n1, Delivered(j, whole)), j, Decode(whole).value);
      }
    }
  }

  lemma AgreesConnect(k: Config, n: Net, j: nat, p: Packet, i: nat, ps: seq<Packet>)
    requires Agrees(k, n, i, ps) && j < |n.links|
    ensures Agrees(k, HandleConnect(k, n, j, p), i, ps)
  {
    hide Agrees, ConnectToken;
    var l := n.links[j];
    if l.phase == SYN_RECV && p.signature == l.serverSig {
      AgreesStill(k, n, HandleConnect(k, n, j, p), Sent(j, ConnectAck(p.packetId, ConnectToken(k, p.payload))), i, ps);
    }
  }

  lemma AgreesDisconnect(k: Config, n: Net, remote: Address, p: Packet, i: nat, ps: seq<Packet>)
    requires Agrees(k, n, i, ps)
    ensures Agrees(k, HandleDisconnect(n, remote, p), i, ps)
  {
    hide Agrees;
    var n1 := n;
    if remote in n.table && n.table[remote] < |n.links| {
      var j := n.table[remote];
      n1 := n.(links := n.links[j := n.links[j].(phase := CLOSED)],
               log := n.log + [Sent(j, DisconnectAck(p.packetId))]);
      AgreesStill(k, n, n1, Sent(j, DisconnectAck(p.packetId)), i, ps);
    }
    AgreesStill(k, n1, HandleDisconnect(n, remote, p), Ended(remote), i, ps);
  }

  lemma AgreesSyn(k: Config, n: Net, remote: Address, sig: seq<Byte>, session: nat, i: nat, ps: seq<Packet>)
    requires Agrees(k, n, i, ps)
    ensures Agrees(k, HandleSyn(n, remote, sig, session), i, ps)
  {
    hide Told;
    ToldSnoc(n.log, Sent(|n.links|, SynAck(sig)), i);
  }

  lemma {:induction false} AgreesReap(k: Config, n: Net, stale: seq<Address>, i: nat, ps: seq<Packet>)
    requires Agrees(k, n, i, ps)
    ensures Agrees(k, Reap(n, stale), i, ps)
    decreases stale
  {
    hide Agrees;
    if stale != [] {
      var n1 := n.(table := n.table - {stale[0]}, log := n.log + [Ended(stale[0])]);
      AgreesStill(k, n, n1, Ended(stale[0]), i, ps);
      AgreesReap(k, n1, stale[1..], i, ps);
    }
  }

  lemma AgreesNext(k: Config, n: Net, s: Step, i: nat, ps: seq<Packet>)
    requires Agrees(k, n, i, ps)
    ensures Agrees(k, Next(k, n, s), i, ps + if ArrivesFor(n, s, i) then [s.packet] else [])
  {
    hide Agrees, HandleSyn, HandleConnect, HandleData, HandleDisconnect, SendPushes;
    assert ps + [] == ps;
    match s
    case ReapIdle(stale) => AgreesReap(k, n, stale, i, ps);
    case TimerPushes(pushes) =>
      AgreesStill(k, n, Logged(n, Expired), Expired, i, ps);
      PushesOnly(Logged(n, Expired), pushes);
      AgreesSends(k, Logged(n, Expired), SendPushes(Logged(n, Expired), pushes).0, i, ps);
    case Receive(remote, p, sig, session) =>
      AgreesSyn(k, n, remote, sig, session, i, ps);
      AgreesDisconnect(k, n, remote, p, i, ps);
      if remote in n.table && n.table[remote] < |n.links| {
        AgreesPacket(k, n, n.table[remote], p, i, ps);
      }
  }

  // A packet for connection `j`.
  lemma AgreesPacket(k: Config, n: Net, j: nat, p: Packet, i: nat, ps: seq<Packet>)
    requires Agrees(k, n, i, ps) && j < |n.links|
    ensures Agrees(k, HandleConnect(k, n, j, p), i, ps)
    ensures Agrees(k, Logged(n, Sent(j, PingAck(p.packetId))), i, ps)
    ensures Agrees(k, HandleData(k, n, j, p), i, ps + if j == i && n.links[i].phase == ESTABLISHED then [p] else [])
  {
    hide Agrees, HandleConnect;
    assert ps + [] == ps;
    AgreesConnect(k, n, j, p, i, ps);
    AgreesStill(k, n, Logged(n, Sent(j, PingAck(p.packetId))), Sent(j, PingAck(p.packetId)), i, ps);
    if j != i {
      AgreesElsewhere(k, n, j, p, i, ps);
    } else if n.links[i].phase == ESTABLISHED {
      AgreesData(k, n, i, p, ps);
    }
  }

  lemma {:induction false} RunLast(k: Config, n: Net, steps: seq<Step>)
    requires steps != []
    ensures Run(k, n, steps) == Next(k, Run(k, n, steps[..|steps| - 1]), steps[|steps| - 1])
    decreases steps
  {
    hide Next;
    if |steps| > 1 {
      RunLast(k, Next(k, n, steps[0]), steps[1..]);
      assert steps[1..][..|steps| - 2] == steps[..|steps| - 1][1..];
    }
  }

  lemma {:induction false} AgreesRun(k: Config, steps: seq<Step>, i: nat)
    ensures Agrees(k, Run(k, QUIET, steps), i, Arrivals(k, steps, i))
    decreases steps
  {
    hide Agrees, Next, ArrivesFor;
    if steps == [] {
      AgreesAtFirst(k, i);
    } else {
      var before, s := steps[..|steps| - 1], steps[|steps| - 1];
      AgreesRun(k, before, i);
      RunLast(k, QUIET, steps);
      AgreesNext(k, Run(k, QUIET, before), s, i, Arrivals(k, before, i));
    }
  }

  lemma AgreesAtFirst(k: Config, i: nat)
    ensures Agrees(k, QUIET, i, [])
  {
  }

  // Whatever arrives in whatever order, for every connection ever made: the pieces taken are the readable payloads
  // of exactly the DATA packets that came for it while it was established, those numbered 0 ending a message; the
  // bodies handed up are those pieces joined and cut after each last one; what is kept is the unfinished rest; and
  // every reliable packet among them was acknowledged, in order.
  lemma BodiesOfPackets(k: Config, steps: seq<Step>, i: nat)
    requires i < |Run(k, QUIET, steps).links|
    ensures var n := Run(k, QUIET, steps); var ps := Arrivals(k, steps, i); var xs := Pieces(k, ps);
            && Told(n.log, i) == Story(xs, Messages(xs), ToAcknowledge(ps))
            && n.links[i].fragments == Unfinished(xs) && n.links[i].lastClientPid == Highest(ToAcknowledge(ps))
  {
    AgreesRun(k, steps, i);
  }
}
