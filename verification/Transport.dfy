/**
  One PRUDP port as a step machine on values (prudp/server.py with the RMC
  dispatcher of rmc/dispatcher.py above it): connection table, reassembly of
  fragments, request dispatch, reliable sending. A connection is named by its
  place in `links`; replaced and closed ones keep theirs.
*/
module Transport {
  import opened Options
  import opened Bytes
  import opened Numbers
  import opened Connections
  import opened RmcCodec
  import Kerberos

  datatype Kind = SYN | CONNECT | DATA | PING | DISCONNECT | OTHER

  datatype Packet = Packet(
    kind: Kind, ack: bool, reliable: bool, needAck: bool, packetId: nat, sessionId: nat,
    signature: seq<Byte>, connSig: seq<Byte>, fragmentId: nat, payload: seq<Byte>)

  // The fields of a connection object.
  datatype Link = Link(
    remote: Address, phase: Phase, clientSessionId: nat, serverSessionId: nat, clientSig: seq<Byte>,
    serverSig: seq<Byte>,
    nextId: nat, lastClientPid: nat, sessionKey: seq<Byte>, userPid: Word, fragments: seq<Byte>)

  // What the server sends; a DATA packet is shown by its id and its message.
  datatype Out =
    | SynAck(sig: seq<Byte>)
    | ConnectAck(packetId: nat, token: seq<Byte>)
    | DataAck(packetId: nat)
    | PingAck(packetId: nat)
    | DisconnectAck(packetId: nat)
    | Data(id: nat, message: Message)

  datatype Event =
    | Sent(link: nat, out: Out)
    | Took(link: nat, body: seq<Byte>, final: bool)   // the plaintext of an accepted DATA packet
    | Delivered(link: nat, body: seq<Byte>)           // a whole body handed to the dispatcher
    | Ended(remote: Address)                          // the close hooks ran
    | Expired                                         // a timer callback starts

  // A server-initiated request: to which connection, and what.
  datatype Push = Push(link: nat, proto: nat, method_: nat, params: seq<Byte>)

  // What a handler does: pushes, then a response, or an exception.
  datatype Outcome = Outcome(pushes: seq<Push>, response: Option<Message>)

  // A handler sees how many requests were dispatched before, who asks, and the request.
  type Handler = (nat, nat, Message) -> Outcome

  // What is fixed for a port: payload layer (`unpack_compressed` after `deobfuscate`), the CONNECT handler's
  // keys on the secure port, the routing table.
  datatype Config = Config(
    unwrap: seq<Byte> -> Option<seq<Byte>>, handshake: Option<Kerberos.Crypto>, handlers: map<(nat, nat), Handler>)

  datatype Net = Net(links: seq<Link>, table: map<Address, nat>, pushId: nat, calls: nat, log: seq<Event>)

  const FIRST_PUSH_ID: nat := 0x10000

  const QUIET: Net := Net([], map[], FIRST_PUSH_ID, 0, [])

  const ERR_NOT_IMPLEMENTED: nat := 0x8001_0001
  const ERR_EXCEPTION: nat := 0x8002_0001

  datatype Step =
    | Receive(remote: Address, packet: Packet, freshSig: seq<Byte>, freshSession: nat)
    | ReapIdle(stale: seq<Address>)
    | TimerPushes(pushes: seq<Push>)

  // ---- sending ------------------------------------------------------------------------

  function Logged(n: Net, e: Event): Net { n.(log := n.log + [e]) }

  // `send_reliable_data`
  function SendData(n: Net, i: nat, m: Message): Net
    requires i < |n.links|
  {
    n.(links := n.links[i := n.links[i].(nextId := n.links[i].nextId + 1)],
       log := n.log + [Sent(i, Data(n.links[i].nextId, m))])
  }

  // `send_request`: a push that cannot be encoded raises, its id already used.
  function SendPush(n: Net, p: Push): (Net, bool) {
    var m := Request(p.proto, n.pushId, p.method_, p.params);
    var n1 := n.(pushId := n.pushId + 1);
    if p.link >= |n.links| || Encode(m).None? then (n1, false) else (SendData(n1, p.link, m), true)
  }

  // Each push in turn, up to the first that raises.
  function SendPushes(n: Net, pushes: seq<Push>): (Net, bool)
    decreases pushes
  {
    if pushes == [] then (n, true)
    else
      var (n1, ok) := SendPush(n, pushes[0]);
      if ok then SendPushes(n1, pushes[1..]) else (n1, false)
  }

  // ---- the dispatcher -------------------------------------------------------------------

  // `on_payload` for a decoded Request.
  function Respond(k: Config, n: Net, i: nat, request: Message): Net
    requires i < |n.links| && request.Request?
  {
    var key := (request.proto, request.method_);
    if key !in k.handlers then SendData(n, i, ResponseError(request.proto, request.callId, ERR_NOT_IMPLEMENTED))
    else
      var outcome := k.handlers[key](n.calls, i, request);
      var (n1, ok) := SendPushes(n.(calls := n.calls + 1), outcome.pushes);
      SendResponse(n1, i, request, if ok then outcome.response else None)
  }

  // One response, an error if the handler raised; a response that cannot be encoded is lost.
  function SendResponse(n: Net, i: nat, request: Message, response: Option<Message>): Net {
    if i >= |n.links| then n
    else if response.None? then SendData(n, i, ResponseError(request.proto, request.callId, ERR_EXCEPTION))
    else if Encode(response.value).None? then n
    else SendData(n, i, response.value)
  }

  function OnPayload(k: Config, n: Net, i: nat, body: seq<Byte>): Net
    requires i < |n.links|
  {
    var n1 := Logged(n, Delivered(i, body));
    match Decode(body)
    case Some(Request(proto, callId, method_, params)) => Respond(k, n1, i, Request(proto, callId, method_, params))
    case _ => n1
  }

  // ---- packets --------------------------------------------------------------------------

  function HandleSyn(n: Net, remote: Address, sig: seq<Byte>, session: nat): Net {
    var made := Link(remote, SYN_RECV, 0, session, [0, 0, 0, 0], sig, 1, 0, [], 0, []);
    n.(links := n.links + [made], table := n.table[remote := |n.links|], log := n.log + [Sent(|n.links|, SynAck(sig))])
  }

  // The CONNECT handler's verdict on a payload, if it is asked at all.
  function Proof(k: Config, payload: seq<Byte>): Option<Kerberos.Handshake> {
    if k.handshake.None? || payload == [] || k.unwrap(payload).None? then None
    else Kerberos.Verify(k.handshake.value, k.unwrap(payload).value)
  }

  // The connection after an accepted CONNECT: established in any case, identified only if the payload proves who it is.
  function Connected(k: Config, l: Link, p: Packet): Link {
    var l1 := l.(clientSessionId := p.sessionId, clientSig := p.connSig, phase := ESTABLISHED);
    match Proof(k, p.payload)
    case None => l1
    case Some(h) => l1.(sessionKey := h.session, userPid := h.pid)
  }

  function ConnectToken(k: Config, payload: seq<Byte>): seq<Byte> {
    match Proof(k, payload) case None => [] case Some(h) => Kerberos.AckToken(h.check)
  }

  function HandleConnect(k: Config, n: Net, i: nat, p: Packet): Net
    requires i < |n.links|
  {
    var l := n.links[i];
    if l.phase != SYN_RECV || p.signature != l.serverSig then n
    else n.(links := n.links[i := Connected(k, l, p)],
            log := n.log + [Sent(i, ConnectAck(p.packetId, ConnectToken(k, p.payload)))])
  }

  // The acknowledgement of a reliable packet: always sent, also for one seen before.
  function Acknowledged(n: Net, i: nat, p: Packet): Net
    requires i < |n.links|
  {
    if !p.reliable then n
    else n.(links := n.links[i := n.links[i].(lastClientPid := Max(n.links[i].lastClientPid, p.packetId))],
            log := n.log + [Sent(i, DataAck(p.packetId))])
  }

  // A plaintext arrives: kept while more fragments follow, put behind what was kept otherwise.
  function Gathered(n: Net, i: nat, body: seq<Byte>, final: bool): (r: (Net, Option<seq<Byte>>))
    requires i < |n.links|
    ensures |r.0.links| == |n.links|
  {
    var l := n.links[i];
    var n1 := Logged(n, Took(i, body, final));
    if !final then (n1.(links := n1.links[i := l.(fragments := l.fragments + body)]), None)
    else (n1.(links := n1.links[i := l.(fragments := [])]), Some(l.fragments + body))
  }

  function Reassemble(k: Config, n: Net, i: nat, body: seq<Byte>, final: bool): Net
    requires i < |n.links|
  {
    var (n1, whole) := Gathered(n, i, body, final);
    if whole.Some? then OnPayload(k, n1, i, whole.value) else n1
  }

  function HandleData(k: Config, n: Net, i: nat, p: Packet): Net
    requires i < |n.links|
  {
    if n.links[i].phase != ESTABLISHED || (p.ack && p.payload == []) then n
    else
      var n1 := Acknowledged(n, i, p);
      if p.payload == [] || k.unwrap(p.payload).None? then n1
      else Reassemble(k, n1, i, k.unwrap(p.payload).value, p.fragmentId == 0)
  }

  // The same in two parts: what the transport does with the packet, and the body it then hands up, if any.
  function Received(k: Config, n: Net, i: nat, p: Packet): (r: (Net, Option<seq<Byte>>))
    requires i < |n.links|
    ensures |r.0.links| == |n.links|
  {
    if n.links[i].phase != ESTABLISHED || (p.ack && p.payload == []) then (n, None)
    else
      var n1 := Acknowledged(n, i, p);
      if p.payload == [] || k.unwrap(p.payload).None? then (n1, None)
      else
        Gathered(n1, i, k.unwrap(p.payload).value, p.fragmentId == 0)
  }

  lemma HandleDataParts(k: Config, n: Net, i: nat, p: Packet)
    requires i < |n.links|
    ensures var (n1, body) := Received(k, n, i, p);
            HandleData(k, n, i, p) == if body.Some? then OnPayload(k, n1, i, body.value) else n1
  {
    hide OnPayload;
  }

  // The transport's own handlers neither read nor change the dispatcher's counters.
  lemma CountersApart(k: Config, n: Net, i: nat, p: Packet, pushId: nat, calls: nat)
    requires i < |n.links|
    ensures var m := n.(pushId := pushId, calls := calls);
            && HandleConnect(k, m, i, p) == HandleConnect(k, n, i, p).(pushId := pushId, calls := calls)
            && Received(k, m, i, p).0 == Received(k, n, i, p).0.(pushId := pushId, calls := calls)
            && Received(k, m, i, p).1 == Received(k, n, i, p).1
  {
    hide Connected, ConnectToken;
  }

  lemma CountersApartTable(n: Net, remote: Address, p: Packet, sig: seq<Byte>, session: nat, pushId: nat, calls: nat)
    ensures var m := n.(pushId := pushId, calls := calls);
            && HandleSyn(m, remote, sig, session)
               == HandleSyn(n, remote, sig, session).(pushId := pushId, calls := calls)
            && HandleDisconnect(m, remote, p) == HandleDisconnect(n, remote, p).(pushId := pushId, calls := calls)
  {
  }

  function HandleDisconnect(n: Net, remote: Address, p: Packet): Net {
    var n1 := if remote in n.table && n.table[remote] < |n.links|
              then var i := n.table[remote];
                   n.(links := n.links[i := n.links[i].(phase := CLOSED)],
                      log := n.log + [Sent(i, DisconnectAck(p.packetId))])
              else n;
    n1.(table := n1.table - {remote}, log := n1.log + [Ended(remote)])
  }

  function HandlePacket(k: Config, n: Net, remote: Address, p: Packet, sig: seq<Byte>, session: nat): Net {
    if p.kind == SYN then HandleSyn(n, remote, sig, session)
    else if p.kind == DISCONNECT then HandleDisconnect(n, remote, p)
    else if remote !in n.table || n.table[remote] >= |n.links| then n
    else
      var i := n.table[remote];
      if p.kind == CONNECT then HandleConnect(k, n, i, p)
      else if p.kind == DATA then HandleData(k, n, i, p)
      else if p.kind == PING && p.needAck then Logged(n, Sent(i, PingAck(p.packetId)))
      else n
  }

  function Reap(n: Net, stale: seq<Address>): Net
    decreases stale
  {
    if stale == [] then n
    else Reap(n.(table := n.table - {stale[0]}, log := n.log + [Ended(stale[0])]), stale[1..])
  }

  function Next(k: Config, n: Net, s: Step): Net {
    match s
    case Receive(remote, p, sig, session) => HandlePacket(k, n, remote, p, sig, session)
    case ReapIdle(stale) => Reap(n, stale)
    case TimerPushes(pushes) => SendPushes(Logged(n, Expired), pushes).0
  }

  function Run(k: Config, n: Net, steps: seq<Step>): Net
    decreases steps
  {
    if steps == [] then n else Run(k, Next(k, n, steps[0]), steps[1..])
  }

  // ---- what a log says about one connection -----------------------------------------------

  // All plaintext accepted, in order.
  function Taken(log: seq<Event>, i: nat): seq<Byte> {
    if log == [] then []
    else
      var e := log[|log| - 1];
      Taken(log[..|log| - 1], i) + if e.Took? && e.link == i then e.body else []
  }

  // All plaintext delivered, in order.
  function Given(log: seq<Event>, i: nat): seq<Byte> {
    if log == [] then []
    else
      var e := log[|log| - 1];
      Given(log[..|log| - 1], i) + if e.Delivered? && e.link == i then e.body else []
  }

  // Final fragments accepted minus bodies delivered.
  function Owed(log: seq<Event>, i: nat): int {
    if log == [] then 0
    else
      var e := log[|log| - 1];
      Owed(log[..|log| - 1], i)
      + (if e.Took? && e.link == i && e.final then 1 else 0) - (if e.Delivered? && e.link == i then 1 else 0)
  }

  // The ids of the reliable DATA sent, in order.
  function Ids(log: seq<Event>, i: nat): seq<nat> {
    if log == [] then []
    else
      var e := log[|log| - 1];
      Ids(log[..|log| - 1], i) + if e.Sent? && e.link == i && e.out.Data? then [e.out.id] else []
  }

  datatype Account = Account(taken: seq<Byte>, given: seq<Byte>, owed: int, ids: seq<nat>)

  function AccountOf(log: seq<Event>, i: nat): Account {
    Account(Taken(log, i), Given(log, i), Owed(log, i), Ids(log, i))
  }

  function Entered(a: Account, i: nat, e: Event): Account {
    match e
    case Took(j, body, final) =>
      if j == i then a.(taken := a.taken + body, owed := a.owed + if final then 1 else 0) else a
    case Delivered(j, body) => if j == i then a.(given := a.given + body, owed := a.owed - 1) else a
    case Sent(j, Data(id, _)) => if j == i then a.(ids := a.ids + [id]) else a
    case _ => a
  }

  lemma AccountSnoc(log: seq<Event>, e: Event, i: nat)
    ensures AccountOf(log + [e], i) == Entered(AccountOf(log, i), i, e)
  {
    assert (log + [e])[..|log|] == log;
    assert Taken(log, i) + [] == Taken(log, i) && Given(log, i) + [] == Given(log, i)
        && Ids(log, i) + [] == Ids(log, i);
  }

  // Delivered text and kept fragments are together the accepted text; every final fragment has been delivered;
  // ids are 1, 2, ... up to the counter.
  predicate Balanced(a: Account, l: Link) {
    a.given + l.fragments == a.taken && a.owed == 0 && l.nextId >= 1 && a.ids == UpTo(l.nextId - 1)
  }

  ghost predicate Conserved(n: Net) {
    && (forall i | 0 <= i < |n.links| :: Balanced(AccountOf(n.log, i), n.links[i]))
    && (forall i | i >= |n.links| :: AccountOf(n.log, i) == Account([], [], 0, []))
  }

  // An event that changes no account, or the account of one connection together with its fields.
  lemma ConservedStep(n: Net, n': Net, e: Event)
    requires Conserved(n) && n'.log == n.log + [e] && |n'.links| == |n.links|
    requires forall j | 0 <= j < |n.links| ::
               Balanced(AccountOf(n.log, j), n.links[j]) ==> Balanced(Entered(AccountOf(n.log, j), j, e), n'.links[j])
    requires forall j | j >= |n.links| :: Entered(Account([], [], 0, []), j, e) == Account([], [], 0, [])
    ensures Conserved(n')
  {
    hide AccountOf, Balanced, Entered;
    forall j: nat ensures AccountOf(n'.log, j) == Entered(AccountOf(n.log, j), j, e) { AccountSnoc(n.log, e, j); }
  }

  // Events of no account: everything but plaintext and reliable DATA.
  predicate Neutral(e: Event) { e.Ended? || e.Expired? || (e.Sent? && !e.out.Data?) }

  lemma ConservedNeutral(n: Net, n': Net, e: Event)
    requires Conserved(n) && Neutral(e) && n'.log == n.log + [e] && |n'.links| == |n.links|
    requires forall j | 0 <= j < |n.links| ::
               n'.links[j].fragments == n.links[j].fragments && n'.links[j].nextId == n.links[j].nextId
    ensures Conserved(n')
  {
    hide AccountOf;
    ConservedStep(n, n', e);
  }

  lemma ConservedSend(n: Net, i: nat, m: Message)
    requires Conserved(n) && i < |n.links|
    ensures Conserved(SendData(n, i, m))
  {
    hide AccountOf;
    var id := n.links[i].nextId;
    assert id >= 1 ==> UpTo(id) == UpTo(id - 1) + [id];
    ConservedStep(n, SendData(n, i, m), Sent(i, Data(id, m)));
  }

  lemma ConservedSameLog(n: Net, n': Net)
    requires Conserved(n) && n'.log == n.log && n'.links == n.links
    ensures Conserved(n')
  {
    hide AccountOf, Balanced;
  }

  lemma {:induction false} ConservedPushes(n: Net, pushes: seq<Push>)
    requires Conserved(n)
    ensures Conserved(SendPushes(n, pushes).0) && |SendPushes(n, pushes).0.links| == |n.links|
    decreases pushes
  {
    hide Conserved, Encode;
    if pushes != [] {
      var p := pushes[0];
      var n1 := n.(pushId := n.pushId + 1);
      ConservedSameLog(n, n1);
      if p.link < |n.links| && Encode(Request(p.proto, n.pushId, p.method_, p.params)).Some? {
        ConservedSend(n1, p.link, Request(p.proto, n.pushId, p.method_, p.params));
        ConservedPushes(SendData(n1, p.link, Request(p.proto, n.pushId, p.method_, p.params)), pushes[1..]);
      }
    }
  }

  lemma ConservedRespond(k: Config, n: Net, i: nat, request: Message)
    requires Conserved(n) && i < |n.links| && request.Request?
    ensures Conserved(Respond(k, n, i, request))
  {
    hide Conserved, Encode;
    var key := (request.proto, request.method_);
    if key !in k.handlers {
      ConservedSend(n, i, ResponseError(request.proto, request.callId, ERR_NOT_IMPLEMENTED));
    } else {
      var outcome := k.handlers[key](n.calls, i, request);
      var n1 := SendPushes(n.(calls := n.calls + 1), outcome.pushes).0;
      ConservedSameLog(n, n.(calls := n.calls + 1));
      ConservedPushes(n.(calls := n.calls + 1), outcome.pushes);
      ConservedSend(n1, i, ResponseError(request.proto, request.callId, ERR_EXCEPTION));
      if outcome.response.Some? {
        ConservedSend(n1, i, outcome.response.value);
      }
    }
  }

  // Taking a final fragment and delivering the whole: conserved together.
  lemma ConservedDelivery(n: Net, i: nat, body: seq<Byte>)
    requires Conserved(n) && i < |n.links|
    ensures Conserved(n.(links := n.links[i := n.links[i].(fragments := [])],
                         log := n.log + [Took(i, body, true)] + [Delivered(i, n.links[i].fragments + body)]))
  {
    hide AccountOf;
    var l := n.links[i];
    var took, gave := Took(i, body, true), Delivered(i, l.fragments + body);
    var n' := n.(links := n.links[i := l.(fragments := [])], log := n.log + [took] + [gave]);
    forall j: nat ensures AccountOf(n'.log, j) == Entered(Entered(AccountOf(n.log, j), j, took), j, gave) {
      AccountSnoc(n.log, took, j);
      AccountSnoc(n.log + [took], gave, j);
    }
    var a := AccountOf(n.log, i);
    assert Balanced(a, l);
    assert a.given + (l.fragments + body) + [] == a.given + l.fragments + body;
  }

  lemma ConservedReassemble(k: Config, n: Net, i: nat, body: seq<Byte>, final: bool)
    requires Conserved(n) && i < |n.links|
    ensures Conserved(Reassemble(k, n, i, body, final))
  {
    hide AccountOf, Respond, Decode;
    var l := n.links[i];
    if final {
      ConservedDelivery(n, i, body);
      var n2 := Logged(Logged(n, Took(i, body, true)).(links := n.links[i := l.(fragments := [])]),
                       Delivered(i, l.fragments + body));
      if Decode(l.fragments + body).Some? && Decode(l.fragments + body).value.Request? {
        ConservedRespond(k, n2, i, Decode(l.fragments + body).value);
      }
    } else {
      assert AccountOf(n.log, i).given + (l.fragments + body) == AccountOf(n.log, i).given + l.fragments + body;
      ConservedStep(n, Reassemble(k, n, i, body, final), Took(i, body, final));
    }
  }

  lemma ConservedSyn(n: Net, remote: Address, sig: seq<Byte>, session: nat)
    requires Conserved(n)
    ensures Conserved(HandleSyn(n, remote, sig, session))
  {
    hide AccountOf;
    var n' := HandleSyn(n, remote, sig, session);
    forall j: nat ensures AccountOf(n'.log, j) == AccountOf(n.log, j)
    {
      AccountSnoc(n.log, Sent(|n.links|, SynAck(sig)), j);
    }
    assert UpTo(0) == [];
  }

  lemma ConservedData(k: Config, n: Net, i: nat, p: Packet)
    requires Conserved(n) && i < |n.links|
    ensures Conserved(HandleData(k, n, i, p))
  {
    hide AccountOf, Balanced, Reassemble;
    var n1 := Acknowledged(n, i, p);
    assert Conserved(n1) by {
      if p.reliable { ConservedNeutral(n, n1, Sent(i, DataAck(p.packetId))); }
    }
    if p.payload != [] && k.unwrap(p.payload).Some? {
      ConservedReassemble(k, n1, i, k.unwrap(p.payload).value, p.fragmentId == 0);
    }
  }

  lemma ConservedConnect(k: Config, n: Net, i: nat, p: Packet)
    requires Conserved(n) && i < |n.links|
    ensures Conserved(HandleConnect(k, n, i, p))
  {
    hide AccountOf, Balanced, ConnectToken;
    var l := n.links[i];
    if l.phase == SYN_RECV && p.signature == l.serverSig {
      ConservedNeutral(n, HandleConnect(k, n, i, p), Sent(i, ConnectAck(p.packetId, ConnectToken(k, p.payload))));
    }
  }

  lemma ConservedDisconnect(n: Net, remote: Address, p: Packet)
    requires Conserved(n)
    ensures Conserved(HandleDisconnect(n, remote, p))
  {
    hide AccountOf, Balanced, Conserved;
    var n1 := n;
    if remote in n.table && n.table[remote] < |n.links| {
      var i := n.table[remote];
      n1 := n.(links := n.links[i := n.links[i].(phase := CLOSED)],
               log := n.log + [Sent(i, DisconnectAck(p.packetId))]);
      ConservedNeutral(n, n1, Sent(i, DisconnectAck(p.packetId)));
    }
    ConservedNeutral(n1, HandleDisconnect(n, remote, p), Ended(remote));
  }

  lemma {:induction false} ConservedReap(n: Net, stale: seq<Address>)
    requires Conserved(n)
    ensures Conserved(Reap(n, stale))
    decreases stale
  {
    hide Conserved;
    if stale != [] {
      var n1 := n.(table := n.table - {stale[0]}, log := n.log + [Ended(stale[0])]);
      ConservedNeutral(n, n1, Ended(stale[0]));
      ConservedReap(n1, stale[1..]);
    }
  }

  lemma ConservedNext(k: Config, n: Net, s: Step)
    requires Conserved(n)
    ensures Conserved(Next(k, n, s))
  {
    hide Conserved, HandleSyn, HandleConnect, HandleData, HandleDisconnect;
    match s
    case ReapIdle(stale) => ConservedReap(n, stale);
    case TimerPushes(pushes) =>
      ConservedNeutral(n, Logged(n, Expired), Expired);
      ConservedPushes(Logged(n, Expired), pushes);
    case Receive(remote, p, sig, session) =>
      ConservedSyn(n, remote, sig, session);
      ConservedDisconnect(n, remote, p);
      if remote in n.table && n.table[remote] < |n.links| {
        ConservedConnect(k, n, n.table[remote], p);
        ConservedData(k, n, n.table[remote], p);
        ConservedNeutral(n, Logged(n, Sent(n.table[remote], PingAck(p.packetId))),
                         Sent(n.table[remote], PingAck(p.packetId)));
      }
  }

  lemma {:induction false} ConservedRun(k: Config, n: Net, steps: seq<Step>)
    requires Conserved(n)
    ensures Conserved(Run(k, n, steps))
    decreases steps
  {
    if steps != [] {
      ConservedNext(k, n, steps[0]);
      ConservedRun(k, Next(k, n, steps[0]), steps[1..]);
    }
  }

  // Whatever arrives, in whatever order: for every connection ever made, the bodies delivered followed by the
  // fragments still kept are the accepted plaintexts one after the other, there was one delivery per final
  // fragment, and the reliable DATA sent to it carried ids 1, 2, ..., n.
  lemma TextConserved(k: Config, steps: seq<Step>, i: nat)
    requires i < |Run(k, QUIET, steps).links|
    ensures var n := Run(k, QUIET, steps);
            && Given(n.log, i) + n.links[i].fragments == Taken(n.log, i) && Owed(n.log, i) == 0
            && Ids(n.log, i) == UpTo(|Ids(n.log, i)|) && n.links[i].nextId == |Ids(n.log, i)| + 1
  {
    ConservedRun(k, QUIET, steps);
    assert Balanced(AccountOf(Run(k, QUIET, steps).log, i), Run(k, QUIET, steps).links[i]);
  }

  // ---- one response per request -----------------------------------------------------------------

  // Where the conversation stands: nothing open, a request being handled, a timer's pushes going out.
  datatype Turn = Idle | Busy(link: nat, callId: nat) | Timing | Broken

  predicate Pushing(m: Message) { m.Request? }

  // Reading the log: a delivered request opens, pushes go out, one response with its call id on its connection
  // closes, and only then can the next body be delivered.
  function Turned(t: Turn, e: Event): Turn {
    match e
    case Delivered(i, body) =>
      if t.Busy? || t.Broken? then Broken
      else (match Decode(body) case Some(Request(_, callId, _, _)) => Busy(i, callId) case _ => Idle)
    case Expired => if t.Busy? || t.Broken? then Broken else Timing
    case Sent(i, Data(_, m)) =>
      if Pushing(m) then (if t.Busy? || t.Timing? then t else Broken)
      else if t == Busy(i, m.callId) then Idle else Broken
    case Sent(_, _) => if t.Busy? then Broken else t
    case Took(_, _, _) => if t.Busy? then Broken else t
    case Ended(_) => if t.Busy? then Broken else t
  }

  function TurnOf(log: seq<Event>): Turn {
    if log == [] then Idle else Turned(TurnOf(log[..|log| - 1]), log[|log| - 1])
  }

  lemma TurnSnoc(log: seq<Event>, e: Event)
    ensures TurnOf(log + [e]) == Turned(TurnOf(log), e)
  {
    assert (log + [e])[..|log|] == log;
  }

  predicate Settled(n: Net) { var t := TurnOf(n.log); t.Idle? || t.Timing? }

  // What the server's handlers are written to do with any request the codec can hand them: answer with its own
  // call id and fields that fit. Raising is always allowed.
  ghost predicate Answering(k: Config) {
    forall key, calls, i, request: Message |
        key in k.handlers && request.Request? && InRange(request)
        && k.handlers[key](calls, i, request).response.Some? ::
      var m := k.handlers[key](calls, i, request).response.value;
      !m.Request? && m.callId == request.callId && Encode(m).Some?
  }

  // Every request the codec hands to a handler is in range.
  lemma DecodedInRange(body: seq<Byte>)
    requires Decode(body).Some? && Decode(body).value.Request?
    ensures InRange(Decode(body).value)
  {
  }

  // The condition is one handlers meet: it holds of any table of handlers that answer each request with its own
  // call id, the request's own method number and a reply that fits a frame.
  lemma OwnCallIdAnswers(k: Config)
    requires forall key, calls, i, request: Message | key in k.handlers && request.Request? ::
               var r := k.handlers[key](calls, i, request).response;
               r.Some? ==> r.value.ResponseOk? && r.value.callId == request.callId
                           && r.value.method_ == request.method_ && |r.value.ret| < 0x8000_0000
    ensures Answering(k)
  {
    forall key, calls, i, request: Message | key in k.handlers && request.Request? && InRange(request)
                                    && k.handlers[key](calls, i, request).response.Some?
      ensures Encode(k.handlers[key](calls, i, request).response.value).Some?
    {
      SetThenFits(request.method_);
    }
  }

  lemma SetThenFits(v: nat)
    requires v < 0x1_0000_0000
    ensures SetBit15(v) < 0x1_0000_0000
  {
  }

  lemma SettledQuietEvent(n: Net, n': Net, e: Event)
    requires Settled(n) && Neutral(e) && n'.log == n.log + [e]
    ensures Settled(n')
  {
    TurnSnoc(n.log, e);
  }

  lemma {:induction false} TurnPushes(n: Net, pushes: seq<Push>)
    requires TurnOf(n.log).Busy? || TurnOf(n.log).Timing?
    ensures TurnOf(SendPushes(n, pushes).0.log) == TurnOf(n.log) && |SendPushes(n, pushes).0.links| == |n.links|
    decreases pushes
  {
    hide TurnOf, Encode;
    if pushes != [] {
      var p := pushes[0];
      var m := Request(p.proto, n.pushId, p.method_, p.params);
      var n1 := n.(pushId := n.pushId + 1);
      if p.link < |n.links| && Encode(m).Some? {
        TurnSnoc(n.log, Sent(p.link, Data(n1.links[p.link].nextId, m)));
        TurnPushes(SendData(n1, p.link, m), pushes[1..]);
      }
    }
  }

  lemma TurnRespond(k: Config, n: Net, i: nat, request: Message)
    requires Answering(k) && i < |n.links| && request.Request? && InRange(request)
    requires TurnOf(n.log) == Busy(i, request.callId)
    ensures TurnOf(Respond(k, n, i, request).log).Idle?
  {
    hide TurnOf, Encode, SendPushes;
    var key := (request.proto, request.method_);
    var refusal := ResponseError(request.proto, request.callId, ERR_NOT_IMPLEMENTED);
    if key !in k.handlers {
      TurnSnoc(n.log, Sent(i, Data(n.links[i].nextId, refusal)));
    } else {
      var outcome := k.handlers[key](n.calls, i, request);
      var (n1, ok) := SendPushes(n.(calls := n.calls + 1), outcome.pushes);
      TurnPushes(n.(calls := n.calls + 1), outcome.pushes);
      var answer := if !ok || outcome.response.None? then ResponseError(request.proto, request.callId, ERR_EXCEPTION)
                    else outcome.response.value;
      TurnSnoc(n1.log, Sent(i, Data(n1.links[i].nextId, answer)));
    }
  }

  lemma SettledReassemble(k: Config, n: Net, i: nat, body: seq<Byte>, final: bool)
    requires Answering(k) && Settled(n) && i < |n.links|
    ensures Settled(Reassemble(k, n, i, body, final))
  {
    hide TurnOf, Respond, Decode, Answering;
    TurnSnoc(n.log, Took(i, body, final));
    if final {
      var l := n.links[i];
      var n1 := Logged(n, Took(i, body, true)).(links := n.links[i := l.(fragments := [])]);
      var n2 := Logged(n1, Delivered(i, l.fragments + body));
      TurnSnoc(n1.log, Delivered(i, l.fragments + body));
      if Decode(l.fragments + body).Some? && Decode(l.fragments + body).value.Request? {
        DecodedInRange(l.fragments + body);
        TurnRespond(k, n2, i, Decode(l.fragments + body).value);
      }
    }
  }

  lemma {:induction false} SettledReap(n: Net, stale: seq<Address>)
    requires Settled(n)
    ensures Settled(Reap(n, stale))
    decreases stale
  {
    hide Settled;
    if stale != [] {
      var n1 := n.(table := n.table - {stale[0]}, log := n.log + [Ended(stale[0])]);
      SettledQuietEvent(n, n1, Ended(stale[0]));
      SettledReap(n1, stale[1..]);
    }
  }

  lemma SettledData(k: Config, n: Net, i: nat, p: Packet)
    requires Answering(k) && Settled(n) && i < |n.links|
    ensures Settled(HandleData(k, n, i, p))
  {
    hide Settled, Answering, Reassemble;
    var n1 := Acknowledged(n, i, p);
    assert Settled(n1) by {
      if p.reliable { SettledQuietEvent(n, n1, Sent(i, DataAck(p.packetId))); }
    }
    if p.payload != [] && k.unwrap(p.payload).Some? {
      SettledReassemble(k, n1, i, k.unwrap(p.payload).value, p.fragmentId == 0);
    }
  }

  lemma SettledConnect(k: Config, n: Net, i: nat, p: Packet)
    requires Settled(n) && i < |n.links|
    ensures Settled(HandleConnect(k, n, i, p))
  {
    hide Settled, ConnectToken;
    var l := n.links[i];
    if l.phase == SYN_RECV && p.signature == l.serverSig {
      SettledQuietEvent(n, HandleConnect(k, n, i, p), Sent(i, ConnectAck(p.packetId, ConnectToken(k, p.payload))));
    }
  }

  lemma SettledDisconnect(n: Net, remote: Address, p: Packet)
    requires Settled(n)
    ensures Settled(HandleDisconnect(n, remote, p))
  {
    hide Settled;
    var n1 := n;
    if remote in n.table && n.table[remote] < |n.links| {
      var i := n.table[remote];
      n1 := n.(links := n.links[i := n.links[i].(phase := CLOSED)],
               log := n.log + [Sent(i, DisconnectAck(p.packetId))]);
      SettledQuietEvent(n, n1, Sent(i, DisconnectAck(p.packetId)));
    }
    SettledQuietEvent(n1, HandleDisconnect(n, remote, p), Ended(remote));
  }

  lemma SettledTimer(n: Net, pushes: seq<Push>)
    requires Settled(n)
    ensures Settled(SendPushes(Logged(n, Expired), pushes).0)
  {
    hide SendPushes, TurnOf, Decode;
    TurnSnoc(n.log, Expired);
    TurnPushes(Logged(n, Expired), pushes);
  }

  lemma SettledNext(k: Config, n: Net, s: Step)
    requires Answering(k) && Settled(n)
    ensures Settled(Next(k, n, s))
  {
    hide Settled, Answering, HandleConnect, HandleData, HandleDisconnect, SendPushes;
    match s
    case ReapIdle(stale) => SettledReap(n, stale);
    case TimerPushes(pushes) => SettledTimer(n, pushes);
    case Receive(remote, p, sig, session) =>
      SettledQuietEvent(n, HandleSyn(n, remote, sig, session), Sent(|n.links|, SynAck(sig)));
      SettledDisconnect(n, remote, p);
      if remote in n.table && n.table[remote] < |n.links| {
        SettledConnect(k, n, n.table[remote], p);
        SettledData(k, n, n.table[remote], p);
        SettledQuietEvent(n, Logged(n, Sent(n.table[remote], PingAck(p.packetId))),
                          Sent(n.table[remote], PingAck(p.packetId)));
      }
  }

  lemma {:induction false} SettledRun(k: Config, n: Net, steps: seq<Step>)
    requires Answering(k) && Settled(n)
    ensures Settled(Run(k, n, steps))
    decreases steps
  {
    if steps != [] {
      SettledNext(k, n, steps[0]);
      SettledRun(k, Next(k, n, steps[0]), steps[1..]);
    }
  }

  // A delivered body that decodes to a request with this call id.
  predicate Asks(e: Event, link: nat, callId: nat) {
    e.Delivered? && e.link == link && Decode(e.body).Some? && Decode(e.body).value.Request?
    && Decode(e.body).value.callId == callId
  }

  // A response with this call id, sent on this connection.
  predicate Answers(e: Event, link: nat, callId: nat) {
    e.Sent? && e.link == link && e.out.Data? && !e.out.message.Request? && e.out.message.callId == callId
  }

  // Nothing but server-initiated requests strictly between two places of a log.
  predicate OnlyPushes(log: seq<Event>, i: int, j: int) {
    forall m | 0 <= i < m < j <= |log| :: log[m].Sent? && log[m].out.Data? && log[m].out.message.Request?
  }

  // Entry j answers entry i.
  predicate AnswerTo(log: seq<Event>, i: int, j: int, link: nat, callId: nat) {
    0 <= i < j < |log| && Asks(log[i], link, callId) && Answers(log[j], link, callId) && OnlyPushes(log, i, j)
  }

  // What the turn says about a log that was never out of order: an open request is the last delivery, followed by
  // pushes only; every other request has its answer; every response has its request.
  ghost predicate Open(log: seq<Event>, link: nat, callId: nat) {
    exists i :: 0 <= i < |log| && Asks(log[i], link, callId) && OnlyPushes(log, i, |log|)
  }

  ghost predicate Answered(log: seq<Event>, i: int, link: nat, callId: nat) {
    exists j :: AnswerTo(log, i, j, link, callId)
  }

  ghost predicate Asked(log: seq<Event>, j: int, link: nat, callId: nat) {
    exists i :: AnswerTo(log, i, j, link, callId)
  }

  ghost predicate Meant(log: seq<Event>) {
    var t := TurnOf(log);
    && (t.Busy? ==> Open(log, t.link, t.callId))
    && (forall i: nat, link: nat, callId: nat | i < |log| && Asks(log[i], link, callId) ::
          (t == Busy(link, callId) && OnlyPushes(log, i, |log|)) || Answered(log, i, link, callId))
    && (forall j: nat, link: nat, callId: nat | j < |log| && Answers(log[j], link, callId) ::
          Asked(log, j, link, callId))
  }

  lemma AnswerKept(log: seq<Event>, e: Event, i: int, j: int, link: nat, callId: nat)
    requires AnswerTo(log, i, j, link, callId)
    ensures AnswerTo(log + [e], i, j, link, callId)
  {
    hide Asks, Answers;
    assert forall m | 0 <= m < |log| :: (log + [e])[m] == log[m];
  }

  lemma {:induction false} TurnMeans(log: seq<Event>)
    requires TurnOf(log) != Broken
    ensures Meant(log)
  {
    hide Asks, Answers, OnlyPushes, Open, Answered, Asked, Decode;
    if log != [] {
      var init, e := log[..|log| - 1], log[|log| - 1];
      assert log == init + [e];
      TurnSnoc(init, e);
      TurnMeans(init);
      forall i: nat, link: nat, callId: nat | i < |log| && Asks(log[i], link, callId)
        ensures (TurnOf(log) == Busy(link, callId) && OnlyPushes(log, i, |log|)) || Answered(log, i, link, callId)
      {
        MeantRequests(init, e, i, link, callId);
      }
      forall j: nat, link: nat, callId: nat | j < |log| && Answers(log[j], link, callId)
        ensures Asked(log, j, link, callId)
      {
        MeantResponses(init, e, j, link, callId);
      }
      if TurnOf(log).Busy? { MeantOpen(init, e); }
    }
  }

  lemma MeantOpen(init: seq<Event>, e: Event)
    requires Meant(init) && Turned(TurnOf(init), e).Busy?
    ensures Open(init + [e], Turned(TurnOf(init), e).link, Turned(TurnOf(init), e).callId)
  {
    hide TurnOf, Decode;
    var log, t0, t := init + [e], TurnOf(init), Turned(TurnOf(init), e);
    if t0.Busy? {
      var i :| 0 <= i < |init| && Asks(init[i], t0.link, t0.callId) && OnlyPushes(init, i, |init|);
      assert log[i] == init[i] && OnlyPushes(log, i, |log|);
    } else {
      assert Asks(log[|init|], t.link, t.callId) && OnlyPushes(log, |init|, |log|);
    }
  }

  lemma MeantRequests(init: seq<Event>, e: Event, i: nat, link: nat, callId: nat)
    requires Meant(init) && Turned(TurnOf(init), e) != Broken
    requires i <= |init| && Asks((init + [e])[i], link, callId)
    ensures var log := init + [e];
            (Turned(TurnOf(init), e) == Busy(link, callId) && OnlyPushes(log, i, |log|))
            || Answered(log, i, link, callId)
  {
    hide TurnOf, Decode;
    var log := init + [e];
    if i < |init| {
      assert log[i] == init[i];
      if j :| AnswerTo(init, i, j, link, callId) {
        AnswerKept(init, e, i, j, link, callId);
      } else {
        assert TurnOf(init) == Busy(link, callId) && OnlyPushes(init, i, |init|);
        if Answers(e, link, callId) {
          assert AnswerTo(log, i, |init|, link, callId);
        } else {
          assert OnlyPushes(log, i, |log|);
        }
      }
    }
  }

  lemma MeantResponses(init: seq<Event>, e: Event, j: nat, link: nat, callId: nat)
    requires Meant(init) && Turned(TurnOf(init), e) != Broken
    requires j <= |init| && Answers((init + [e])[j], link, callId)
    ensures Asked(init + [e], j, link, callId)
  {
    hide TurnOf, Decode;
    var log := init + [e];
    if j < |init| {
      var i :| AnswerTo(init, i, j, link, callId);
      AnswerKept(init, e, i, j, link, callId);
    } else {
      var i :| 0 <= i < |init| && Asks(init[i], link, callId) && OnlyPushes(init, i, |init|);
      assert AnswerTo(log, i, j, link, callId);
    }
  }

  // In every run, whatever arrives: each delivered body that decodes to a request has exactly one response, on its
  // connection and with its call id, with nothing but server-initiated requests in between, so before anything
  // else is delivered; and every response ever sent answers such a request. Two requests never share a response.
  lemma OneResponseEach(k: Config, steps: seq<Step>)
    requires Answering(k)
    ensures var log := Run(k, QUIET, steps).log;
            && (forall i: nat, link: nat, callId: nat | i < |log| && Asks(log[i], link, callId) ::
                  Answered(log, i, link, callId))
            && (forall j: nat, link: nat, callId: nat | j < |log| && Answers(log[j], link, callId) ::
                  Asked(log, j, link, callId))
            && (forall i, i', j, j', link, link', callId, callId' |
                  AnswerTo(log, i, j, link, callId) && AnswerTo(log, i', j', link', callId') :: i == i' <==> j == j')
  {
    hide Run, Asks, Answers, OnlyPushes, AnswerTo, Answered, Asked, Answering, TurnOf;
    SettledStart();
    SettledRun(k, QUIET, steps);
    var log := Run(k, QUIET, steps).log;
    TurnMeans(log);
    forall i, i', j, j', link, link', callId, callId' |
      AnswerTo(log, i, j, link, callId) && AnswerTo(log, i', j', link', callId') ensures i == i' <==> j == j'
    {
      AnswersApart(log, i, i', j, j', link, link', callId, callId');
    }
  }

  lemma AnswersApart(log: seq<Event>, i: int, i': int, j: int, j': int, link: nat, link': nat, callId: nat,
                     callId': nat)
    requires AnswerTo(log, i, j, link, callId) && AnswerTo(log, i', j', link', callId')
    ensures i == i' <==> j == j'
  {
    hide Decode;
  }

  lemma SettledStart()
    ensures Settled(QUIET)
  {
  }
}
