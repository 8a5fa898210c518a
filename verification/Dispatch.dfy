/**
  What each delivered body is answered with: which handler is asked, what it is
  asked, and every message sent because of it, one by one.
*/
module Dispatch {
  import opened Options
  import opened Bytes
  import opened Connections
  import opened RmcCodec
  import opened Transport
  import opened Packets

  // Requests handed to a handler so far.
  function Dispatched(k: Config, log: seq<Event>): nat {
    if log == [] then 0
    else
      var e := log[|log| - 1];
      Dispatched(k, log[..|log| - 1]) + if IsDispatch(k, e) then 1 else 0
  }

  // A delivered body that is a request some handler is registered for.
  predicate IsDispatch(k: Config, e: Event) {
    e.Delivered? && Decode(e.body).Some? && Decode(e.body).value.Request?
    && (Decode(e.body).value.proto, Decode(e.body).value.method_) in k.handlers
  }

  predicate Carries(e: Event, link: nat, m: Message) {
    e.Sent? && e.link == link && e.out.Data? && e.out.message == m
  }

  // A push goes out if its connection was ever made and its fields fit a frame.
  predicate Sendable(p: Push, links: nat, id: nat) {
    p.link < links && Encode(Request(p.proto, id, p.method_, p.params)).Some?
  }

  // The first `sent` pushes, numbered on from `id`, open `out`; the one behind them, if any, cannot be sent.
  ghost predicate Pushed(out: seq<Event>, pushes: seq<Push>, links: nat, id: nat, sent: nat) {
    && sent <= |pushes| && sent <= |out|
    && (forall q | 0 <= q < sent ::
          Sendable(pushes[q], links, id + q)
          && Carries(out[q], pushes[q].link, Request(pushes[q].proto, id + q, pushes[q].method_, pushes[q].params)))
    && (sent < |pushes| ==> !Sendable(pushes[sent], links, id + sent))
  }

  // One push sent, then the rest.
  lemma PushedFirst(e: Event, rest: seq<Event>, pushes: seq<Push>, links: nat, id: nat)
    requires pushes != [] && Sendable(pushes[0], links, id)
    requires Carries(e, pushes[0].link, Request(pushes[0].proto, id, pushes[0].method_, pushes[0].params))
    requires Pushed(rest, pushes[1..], links, id + 1, |rest|)
    ensures Pushed([e] + rest, pushes, links, id, |rest| + 1)
  {
    hide Sendable, Carries;
    var out := [e] + rest;
    forall q | 0 <= q < |out|
      ensures Sendable(pushes[q], links, id + q)
      ensures Carries(out[q], pushes[q].link,
                      Request(pushes[q].proto, id + q, pushes[q].method_, pushes[q].params))
    {
      if q > 0 { assert out[q] == rest[q - 1] && pushes[q] == pushes[1..][q - 1]; }
    }
  }

  lemma {:induction false} PushesGo(n: Net, pushes: seq<Push>) returns (out: seq<Event>)
    ensures var (n', ok) := SendPushes(n, pushes);
            && n'.log == n.log + out && |n'.links| == |n.links| && n'.calls == n.calls
            && Pushed(out, pushes, |n.links|, n.pushId, |out|) && ok == (|out| == |pushes|)
            && n'.pushId == n.pushId + |out| + if ok then 0 else 1
    decreases pushes
  {
    hide Encode;
    out := [];
    assert n.log + [] == n.log;
    if pushes != [] {
      var (n1, ok) := SendPush(n, pushes[0]);
      if ok {
        hide Pushed;
        var p := pushes[0];
        var e := Sent(p.link, Data(n.links[p.link].nextId, Request(p.proto, n.pushId, p.method_, p.params)));
        assert n1.log == n.log + [e];
        var rest := PushesGo(n1, pushes[1..]);
        out := [e] + rest;
        assert n.log + out == n1.log + rest;
        PushedFirst(e, rest, pushes, |n.links|, n.pushId);
      }
    }
  }

  // Everything sent for one request, `calls` of them having been dispatched before.
  ghost predicate AnsweredWith(k: Config, out: seq<Event>, i: nat, m: Message, calls: nat, links: nat, id: nat,
                               sent: nat)
    requires m.Request?
  {
    if (m.proto, m.method_) !in k.handlers then
      |out| == 1 && Carries(out[0], i, ResponseError(m.proto, m.callId, 0x8001_0001))
    else
      var asked := k.handlers[(m.proto, m.method_)](calls, i, m);
      && Pushed(out, asked.pushes, links, id, sent)
      && if sent < |asked.pushes| || asked.response.None? then
           |out| == sent + 1 && Carries(out[sent], i, ResponseError(m.proto, m.callId, 0x8002_0001))
         else if Encode(asked.response.value).Some? then
           |out| == sent + 1 && Carries(out[sent], i, asked.response.value)
         else
           |out| == sent
  }

  // Push ids used up: one per push sent, and one for the push that failed.
  function IdsUsed(k: Config, i: nat, m: Message, calls: nat, sent: nat): nat
    requires m.Request?
  {
    if (m.proto, m.method_) !in k.handlers then 0
    else if sent < |k.handlers[(m.proto, m.method_)](calls, i, m).pushes| then sent + 1
    else sent
  }

  lemma RespondsWith(k: Config, n: Net, i: nat, m: Message) returns (out: seq<Event>, sent: nat)
    requires i < |n.links| && m.Request?
    ensures Respond(k, n, i, m).log == n.log + out
    ensures AnsweredWith(k, out, i, m, n.calls, |n.links|, n.pushId, sent)
    ensures Respond(k, n, i, m).calls == n.calls + if (m.proto, m.method_) in k.handlers then 1 else 0
    ensures Respond(k, n, i, m).pushId == n.pushId + IdsUsed(k, i, m, n.calls, sent)
  {
    hide Encode, Sendable;
    sent := 0;
    if (m.proto, m.method_) !in k.handlers {
      out := Respond(k, n, i, m).log[|n.log|..];
    } else {
      hide Carries, SendResponse;
      var asked := k.handlers[(m.proto, m.method_)](n.calls, i, m);
      var n0 := n.(calls := n.calls + 1);
      var pushed := PushesGo(n0, asked.pushes);
      var n1 := SendPushes(n0, asked.pushes).0;
      sent := |pushed|;
      var last := Respond(k, n, i, m).log[|n1.log|..];
      out := pushed + last;
      assert n.log + out == n1.log + last;
      PushedLonger(pushed, last, asked.pushes, |n.links|, n.pushId, sent);
      LastAnswer(n1, i, m, if sent == |asked.pushes| then asked.response else None, last);
      assert |last| == 1 ==> out[sent] == last[0];
    }
  }

  // The response itself.
  lemma LastAnswer(n: Net, i: nat, m: Message, response: Option<Message>, last: seq<Event>)
    requires i < |n.links| && m.Request? && SendResponse(n, i, m, response).log == n.log + last
    ensures if response.None? then |last| == 1 && Carries(last[0], i, ResponseError(m.proto, m.callId, 0x8002_0001))
            else if Encode(response.value).Some? then |last| == 1 && Carries(last[0], i, response.value)
            else last == []
  {
    hide Encode;
    assert SendResponse(n, i, m, response).log[|n.log|..] == last;
  }

  lemma PushedLonger(out: seq<Event>, more: seq<Event>, pushes: seq<Push>, links: nat, id: nat, sent: nat)
    requires Pushed(out, pushes, links, id, sent)
    ensures Pushed(out + more, pushes, links, id, sent)
  {
    hide Sendable, Carries;
    assert forall q | 0 <= q < sent :: (out + more)[q] == out[q];
  }

  // ---- the count of dispatches over a run -----------------------------------------------------

  lemma DispatchedSnoc(k: Config, log: seq<Event>, e: Event)
    ensures Dispatched(k, log + [e]) == Dispatched(k, log) + if IsDispatch(k, e) then 1 else 0
  {
    assert (log + [e])[..|log|] == log;
  }

  predicate NoDelivery(es: seq<Event>) { forall q | 0 <= q < |es| :: !es[q].Delivered? }

  lemma {:induction false} DispatchedSame(k: Config, log: seq<Event>, es: seq<Event>)
    requires NoDelivery(es)
    ensures Dispatched(k, log + es) == Dispatched(k, log)
  {
    if es == [] {
      assert log + es == log;
    } else {
      DispatchedSame(k, log, es[..|es| - 1]);
      DispatchedSnoc(k, log + es[..|es| - 1], es[|es| - 1]);
      assert log + es == log + es[..|es| - 1] + [es[|es| - 1]];
    }
  }

  // A step either delivers nothing, or one body, whose answers end the step.
  datatype Turnout = Nothing(es: seq<Event>) | Body(es: seq<Event>, i: nat, body: seq<Byte>, out: seq<Event>, sent: nat)

  ghost predicate Turned(k: Config, n: Net, n': Net, t: Turnout) {
    && NoDelivery(t.es)
    && match t
       case Nothing(es) => n'.log == n.log + es && n'.calls == n.calls && n'.pushId >= n.pushId
       case Body(es, i, body, out, sent) =>
         && i < |n.links| && n'.log == n.log + es + [Delivered(i, body)] + out && NoDelivery(out)
         && n'.calls == n.calls + (if IsDispatch(k, Delivered(i, body)) then 1 else 0)
         && match Decode(body)
            case Some(Request(p, c, m, ps)) =>
              && AnsweredWith(k, out, i, Request(p, c, m, ps), n.calls, |n.links|, n.pushId, sent)
              && n'.pushId == n.pushId + IdsUsed(k, i, Request(p, c, m, ps), n.calls, sent)
            case _ => out == [] && n'.pushId == n.pushId
  }

  lemma AnswersAreSent(k: Config, out: seq<Event>, i: nat, m: Message, calls: nat, links: nat, id: nat, sent: nat)
    requires m.Request? && AnsweredWith(k, out, i, m, calls, links, id, sent)
    ensures NoDelivery(out)
  {
    hide Encode;
    forall q | 0 <= q < |out| ensures !out[q].Delivered? {
      if (m.proto, m.method_) in k.handlers && q < sent {
        assert Sendable(k.handlers[(m.proto, m.method_)](calls, i, m).pushes[q], links, id + q);
      }
    }
  }

  lemma PayloadTurns(k: Config, n: Net, i: nat, body: seq<Byte>) returns (t: Turnout)
    requires i < |n.links|
    ensures Turned(k, n, OnPayload(k, n, i, body), t) && t.Body? && t.es == [] && t.i == i && t.body == body
  {
    hide Respond, AnsweredWith, Encode;
    var n1 := Logged(n, Delivered(i, body));
    assert n.log + [] == n.log;
    t := Body([], i, body, [], 0);
    assert n1.log + [] == n1.log;
    if Decode(body).Some? && Decode(body).value.Request? {
      var out, sent := RespondsWith(k, n1, i, Decode(body).value);
      AnswersAreSent(k, out, i, Decode(body).value, n1.calls, |n1.links|, n1.pushId, sent);
      t := Body([], i, body, out, sent);
    }
  }

  lemma DataTurns(k: Config, n: Net, i: nat, p: Packet) returns (t: Turnout)
    requires i < |n.links|
    ensures Turned(k, n, HandleData(k, n, i, p), t)
  {
    hide OnPayload, AnsweredWith, Decode, IsDispatch;
    assert n.log + [] == n.log;
    t := Nothing([]);
    if n.links[i].phase == ESTABLISHED && !(p.ack && p.payload == []) {
      var acked := if p.reliable then [Sent(i, DataAck(p.packetId))] else [];
      var n1 := Acknowledged(n, i, p);
      t := Nothing(acked);
      if p.payload != [] && k.unwrap(p.payload).Some? {
        var text, final := k.unwrap(p.payload).value, p.fragmentId == 0;
        var (n2, whole) := Gathered(n1, i, text, final);
        var es := acked + [Took(i, text, final)];
        assert n2.log == n.log + es;
        t := Nothing(es);
        if final {
          var u := PayloadTurns(k, n2, i, whole.value);
          assert n2.log + [] == n.log + es;
          t := Body(es, i, whole.value, u.out, u.sent);
        }
      }
    }
  }

  lemma {:induction false} ReapTurns(n: Net, stale: seq<Address>) returns (es: seq<Event>)
    ensures Reap(n, stale).log == n.log + es && NoDelivery(es) && Reap(n, stale).calls == n.calls
    ensures Reap(n, stale).pushId == n.pushId
    decreases stale
  {
    es := [];
    assert n.log + [] == n.log;
    if stale != [] {
      var n1 := n.(table := n.table - {stale[0]}, log := n.log + [Ended(stale[0])]);
      var rest := ReapTurns(n1, stale[1..]);
      es := [Ended(stale[0])] + rest;
      assert n.log + es == n1.log + rest;
    }
  }

  lemma StepTurns(k: Config, n: Net, s: Step) returns (t: Turnout)
    ensures Turned(k, n, Next(k, n, s), t)
  {
    hide HandleData, SendPushes, AnsweredWith, Decode, IsDispatch, ConnectToken, Connected;
    assert n.log + [] == n.log;
    match s
    case ReapIdle(stale) =>
      var es := ReapTurns(n, stale);
      t := Nothing(es);
    case TimerPushes(pushes) =>
      var out := PushesGo(Logged(n, Expired), pushes);
      assert n.log + ([Expired] + out) == n.log + [Expired] + out;
      PushedAreSent(out, pushes, |n.links|, n.pushId);
      t := Nothing([Expired] + out);
    case Receive(remote, p, sig, session) =>
      if p.kind == DATA && remote in n.table && n.table[remote] < |n.links| {
        t := DataTurns(k, n, n.table[remote], p);
      } else {
        t := Nothing(Next(k, n, s).log[|n.log|..]);
      }
  }

  lemma PushedAreSent(out: seq<Event>, pushes: seq<Push>, links: nat, id: nat)
    requires Pushed(out, pushes, links, id, |out|)
    ensures NoDelivery(out)
  {
    hide Encode;
    forall q | 0 <= q < |out| ensures !out[q].Delivered? {
      assert Sendable(pushes[q], links, id + q);
    }
  }

  lemma {:induction false} CallsCounted(k: Config, steps: seq<Step>)
    ensures Run(k, QUIET, steps).calls == Dispatched(k, Run(k, QUIET, steps).log)
  {
    hide Next, IsDispatch, AnsweredWith, Decode;
    if steps != [] {
      var before, s := steps[..|steps| - 1], steps[|steps| - 1];
      var n := Run(k, QUIET, before);
      CallsCounted(k, before);
      RunLast(k, QUIET, steps);
      var t := StepTurns(k, n, s);
      DispatchedSame(k, n.log, t.es);
      if t.Body? {
        DispatchedSnoc(k, n.log + t.es, Delivered(t.i, t.body));
        DispatchedSame(k, n.log + t.es + [Delivered(t.i, t.body)], t.out);
      }
    }
  }

  // The server's own call ids start above 16 bits and never go down.
  lemma {:induction false} PushIdsStayHigh(k: Config, steps: seq<Step>)
    ensures Run(k, QUIET, steps).pushId >= 0x1_0000
  {
    hide Next, IsDispatch, AnsweredWith, Decode;
    if steps != [] {
      var before, s := steps[..|steps| - 1], steps[|steps| - 1];
      PushIdsStayHigh(k, before);
      RunLast(k, QUIET, steps);
      var t := StepTurns(k, Run(k, QUIET, before), s);
    }
  }

  // ---- the theorem -------------------------------------------------------------------------------

  // In every run, whatever a step delivers: a body that is not a request is followed by nothing. A request goes to
  // the handler registered for its protocol and method, which sees the request and the connection and how many
  // were dispatched before; then its pushes go out in order, numbered on, up to the first that cannot be sent, then
  // its own response, or the exception error if a push failed or it raised. An unknown method gets its own error.
  lemma DeliveredIsAnswered(k: Config, steps: seq<Step>, s: Step, d: nat) returns (sent: nat)
    requires var n := Run(k, QUIET, steps); |n.log| <= d < |Next(k, n, s).log| && Next(k, n, s).log[d].Delivered?
    ensures var n, n' := Run(k, QUIET, steps), Next(k, Run(k, QUIET, steps), s);
            match Decode(n'.log[d].body)
            case Some(Request(p, c, m, ps)) =>
              && AnsweredWith(k, n'.log[d + 1..], n'.log[d].link, Request(p, c, m, ps), Dispatched(k, n.log), |n.links|,
                              n.pushId, sent)
              && n'.pushId == n.pushId + IdsUsed(k, n'.log[d].link, Request(p, c, m, ps), Dispatched(k, n.log), sent)
            case _ => n'.log[d + 1..] == [] && n'.pushId == n.pushId
  {
    hide Run, Next, AnsweredWith, IdsUsed, Decode, IsDispatch, Dispatched;
    var n := Run(k, QUIET, steps);
    var n' := Next(k, n, s);
    CallsCounted(k, steps);
    var t := StepTurns(k, n, s);
    DeliveredAt(k, n, n', t, d);
    sent := t.sent;
  }

  // A timer's pushes go out behind its mark, likewise.
  lemma TimerSends(k: Config, n: Net, pushes: seq<Push>) returns (out: seq<Event>)
    ensures var n' := Next(k, n, TimerPushes(pushes));
            && n'.log == n.log + [Expired] + out && Pushed(out, pushes, |n.links|, n.pushId, |out|)
            && n'.pushId == n.pushId + |out| + if |out| == |pushes| then 0 else 1
  {
    hide Pushed;
    out := PushesGo(Logged(n, Expired), pushes);
  }

  lemma DeliveredAt(k: Config, n: Net, n': Net, t: Turnout, d: nat)
    requires Turned(k, n, n', t) && |n.log| <= d < |n'.log| && n'.log[d].Delivered?
    ensures t.Body? && n'.log[d] == Delivered(t.i, t.body) && n'.log[d + 1..] == t.out
  {
    hide AnsweredWith, Decode, IsDispatch;
    var rest := if t.Body? then [Delivered(t.i, t.body)] + t.out else [];
    var q := d - |n.log|;
    assert n'.log == n.log + (t.es + rest);
    EitherPart(t.es, rest, q);
    if t.Body? && q >= |t.es| {
      EitherPart([Delivered(t.i, t.body)], t.out, q - |t.es|);
    }
  }

  lemma EitherPart(a: seq<Event>, b: seq<Event>, q: nat)
    requires q < |a + b|
    ensures (a + b)[q] == if q < |a| then a[q] else b[q - |a|]
  {
  }
}
