/**
  Whom a fired batch reaches: in every run, each step that fires a batch sends
  every participant reachable on the firing port exactly one stats push with its
  own transaction id and stored cash, and sends no other stats push.
*/
module Fires {
  import opened Options
  import opened Bytes
  import opened Lobbies
  import opened Machine
  import opened Invariants
  import opened Batch
  import opened Saves
  import Career

  predicate IsStats(e: Event) { e.Sent? && e.push.Stats? }

  // The push a participant is due.
  function StatsFor(w: World, port: Port, gid: Gid, p: Participant): Event {
    Sent(port, p.remote, Stats(gid, p.pid, TxnOf(w.txns, p.pid), Career.CareerCash(w.db, p.pid)))
  }

  // ---- the pushes of one fire -----------------------------------------------------------------

  ghost predicate Due(w: World, port: Port, gid: Gid, ps: seq<Participant>, e: Event) {
    exists p :: p in ps && Key(port, p.remote) in w.table && e == StatsFor(w, port, gid, p)
  }

  lemma {:induction false} PushedOnly(w: World, port: Port, gid: Gid, ps: seq<Participant>, e: Event)
    requires e in StatsPushes(w.table, w.txns, w.db, port, gid, ps)
    ensures Due(w, port, gid, ps, e)
  {
    hide Career.CareerCash;
    var n := |ps| - 1;
    assert ps == ps[..n] + [ps[n]];
    if e in StatsPushes(w.table, w.txns, w.db, port, gid, ps[..n]) {
      PushedOnly(w, port, gid, ps[..n], e);
    } else {
      assert ps[n] in ps && e == StatsFor(w, port, gid, ps[n]);
    }
  }

  lemma {:induction false} PushedOnce(w: World, port: Port, gid: Gid, ps: seq<Participant>, p: Participant)
    requires Distinct(ps) && p in ps
    ensures multiset(StatsPushes(w.table, w.txns, w.db, port, gid, ps))[StatsFor(w, port, gid, p)]
         == if Key(port, p.remote) in w.table then 1 else 0
  {
    hide Career.CareerCash, TxnOf;
    var n := |ps| - 1;
    var init, due := ps[..n], StatsFor(w, port, gid, p);
    var before := StatsPushes(w.table, w.txns, w.db, port, gid, init);
    assert ps == init + [ps[n]];
    if p in init {
      PushedOnce(w, port, gid, init, p);
    } else {
      if due in before {
        PushedOnly(w, port, gid, init, due);
        assert false;
      }
      assert multiset(before)[due] == 0;
    }
    assert multiset(before + [StatsFor(w, port, gid, ps[n])])
        == multiset(before) + multiset{StatsFor(w, port, gid, ps[n])};
  }

  // ---- what one step logs about fires -----------------------------------------------------------

  predicate NoFire(es: seq<Event>) { forall i | 0 <= i < |es| :: !es[i].Fired? && !IsStats(es[i]) }

  // The step logged one fire, its pushes right behind it, and nothing else about fires.
  ghost predicate FiredOnce(w: World, w': World, port: Port, gid: Gid, fired: Event, pre: seq<Event>,
                            post: seq<Event>) {
    && gid in w.reg.byId && fired.Fired? && fired.gid == gid && NoFire(pre) && NoFire(post)
    && w'.log == w.log + pre + [fired]
                 + StatsPushes(w.table, w'.txns, w'.db, port, gid, w.reg.byId[gid].participants) + post
  }

  ghost predicate FiredNone(w: World, w': World, es: seq<Event>) { w'.log == w.log + es && NoFire(es) }

  lemma FireLogs(w: World, port: Port, gid: Gid, reason: Reason)
    requires gid in w.reg.byId && w.reg.byId[gid].received != {}
    ensures FiredOnce(w, Fire(w, port, gid, reason), port, gid, Fired(gid, reason, w.reg.byId[gid].received), [], [])
  {
    hide StatsPushes, Unarmed;
    var l := w.reg.byId[gid];
    var pushes := StatsPushes(w.table, w.txns, w.db, port, gid, l.participants);
    var fired := Fired(gid, reason, l.received);
    assert w.log + [] == w.log && w.log + [fired] + pushes + [] == w.log + ([fired] + pushes);
  }

  // Plain events before a fire, about worlds with the same people.
  lemma FiredLater(w: World, w1: World, w2: World, port: Port, gid: Gid, fired: Event, es: seq<Event>,
                   pre: seq<Event>, post: seq<Event>)
    requires w1.log == w.log + es && NoFire(es) && w1.table == w.table && gid in w.reg.byId
    requires gid in w1.reg.byId && w1.reg.byId[gid].participants == w.reg.byId[gid].participants
    requires FiredOnce(w1, w2, port, gid, fired, pre, post)
    ensures FiredOnce(w, w2, port, gid, fired, es + pre, post)
  {
    hide StatsPushes;
    assert w.log + es + pre == w.log + (es + pre);
  }

  lemma NoneLater(w: World, w1: World, w2: World, a: seq<Event>, b: seq<Event>)
    requires FiredNone(w, w1, a) && FiredNone(w1, w2, b)
    ensures FiredNone(w, w2, a + b)
  {
    assert w.log + a + b == w.log + (a + b);
  }

  lemma RecordLogs(w: World, port: Port, gid: Gid, pid: Pid) returns (fired: Option<Event>, pre: seq<Event>)
    requires gid in w.reg.byId
    ensures var w' := Record(w, port, gid, pid);
            if fired.Some? then FiredOnce(w, w', port, gid, fired.value, pre, []) else FiredNone(w, w', pre)
  {
    hide Fire, StatsPushes;
    var l := w.reg.byId[gid].(received := w.reg.byId[gid].received + {pid});
    var w1 := w.(reg := Put(w.reg, gid, l), log := w.log + [Reported(gid, pid)]);
    fired, pre := None, [Reported(gid, pid)];
    if l.expected <= l.received {
      FireLogs(w1, port, gid, AllReported);
      fired := Some(Fired(gid, AllReported, l.received));
      FiredLater(w, w1, Record(w, port, gid, pid), port, gid, fired.value, pre, [], []);
      pre := pre + [];
    } else if l.timer.None? {
      NoneLater(w, w1, Record(w, port, gid, pid), pre, [Armed(w1.nextTimer, gid)]);
      pre := pre + [Armed(w1.nextTimer, gid)];
    }
  }

  lemma AttributeLogs(w: World, port: Port, gid: Gid, pid: Pid) returns (fired: Option<Event>, pre: seq<Event>)
    requires gid in w.reg.byId
    ensures var w' := Attribute(w, port, gid, pid);
            if fired.Some? then FiredOnce(w, w', port, gid, fired.value, pre, []) else FiredNone(w, w', pre)
  {
    hide Record, StatsPushes;
    var w1 := Seeded(w, gid);
    var l := w.reg.byId[gid];
    var seed := if l.expected == {} then [Snapshot(gid, Pids(l.participants))] else [];
    assert w1.log == w.log + seed;
    fired, pre := RecordLogs(w1, port, gid, pid);
    if fired.Some? {
      FiredLater(w, w1, Attribute(w, port, gid, pid), port, gid, fired.value, seed, pre, []);
    } else {
      NoneLater(w, w1, Attribute(w, port, gid, pid), seed, pre);
    }
    pre := seed + pre;
  }

  lemma AttributedLogs(w: World, port: Port, pid: Pid) returns (fired: Option<Event>, pre: seq<Event>)
    ensures fired.Some? ==> fired.value.Fired?
    ensures var w' := Attributed(w, port, pid);
            if fired.Some? then FiredOnce(w, w', port, fired.value.gid, fired.value, pre, []) else FiredNone(w, w', pre)
  {
    hide Attribute, StatsPushes;
    fired, pre := None, [];
    var home := FirstWith(w.reg, w.reg.order, pid);
    if home.Some? {
      fired, pre := AttributeLogs(w, port, home.value, pid);
    } else {
      assert w.log == w.log + [];
    }
  }

  lemma CountedLogs(w: World, port: Port, pid: Pid, v0: seq<Word>)
    returns (fired: Option<Event>, pre: seq<Event>, post: seq<Event>)
    ensures fired.Some? ==> fired.value.Fired?
    ensures var w' := Counted(w, port, pid, v0);
            if fired.Some? then FiredOnce(w, w', port, fired.value.gid, fired.value, pre, post)
            else FiredNone(w, w', pre)
  {
    hide Attributed, Loggable, StatsPushes;
    var txn := TxnOf(w.txns, pid) + 1;
    var w1 := w.(txns := w.txns[pid := txn]);
    if Loggable(v0) {
      fired, pre := AttributedLogs(w1, port, pid);
      post := [Replied(pid, txn)];
      if fired.None? {
        assert w.log + pre + post == w.log + (pre + post);
        pre := pre + post;
      } else {
        CountedAround(w, w1, Attributed(w1, port, pid), Counted(w, port, pid, v0), port, fired.value, pre, post);
      }
    } else {
      fired, pre, post := None, [Burned(pid, txn)], [];
    }
  }

  lemma CountedAround(w: World, w1: World, w2: World, w3: World, port: Port, fired: Event, pre: seq<Event>,
                      post: seq<Event>)
    requires fired.Fired? && FiredOnce(w1, w2, port, fired.gid, fired, pre, []) && NoFire(post)
    requires w1.log == w.log && w1.table == w.table && w1.reg == w.reg
    requires w3.log == w2.log + post && w3.txns == w2.txns && w3.db == w2.db
    ensures FiredOnce(w, w3, port, fired.gid, fired, pre, post)
  {
    hide StatsPushes;
    var pushes := StatsPushes(w.table, w2.txns, w2.db, port, fired.gid, w.reg.byId[fired.gid].participants);
    assert w2.log + post == w.log + pre + [fired] + pushes + post by {
      assert w.log + pre + [fired] + pushes + [] == w.log + pre + [fired] + pushes;
    }
  }

  lemma ReportLogs(w: World, port: Port, c: Conn, params: seq<Byte>, writeOk: bool)
    returns (fired: Option<Event>, pre: seq<Event>, post: seq<Event>)
    ensures fired.Some? ==> fired.value.Fired?
    ensures var w' := ReportStats(w, port, c, params, writeOk);
            if fired.Some? then FiredOnce(w, w', port, fired.value.gid, fired.value, pre, post)
            else FiredNone(w, w', pre)
  {
    hide Counted, StatsPushes;
    var counted, w1, es, v0 := ReportParts(w, port, c, params, writeOk);
    if counted {
      fired, pre, post := CountedLogs(w1, port, c.userPid, v0);
      if fired.Some? {
        FiredLater(w, w1, Counted(w1, port, c.userPid, v0), port, fired.value.gid, fired.value, es, pre, post);
      } else {
        NoneLater(w, w1, Counted(w1, port, c.userPid, v0), es, pre);
      }
      pre := es + pre;
    } else {
      fired, pre, post := None, [], [];
      assert w.log == w.log + [];
    }
  }

  // ---- any step --------------------------------------------------------------------------------

  // The port a step's fires go out on: the request's, or the one whose dispatcher armed the timer.
  function FiringPort(w: World, s: Step): Port {
    match s
    case Request(port, _, _) => port
    case Expire(t) => if t in w.timers then w.timers[t].port else Secure
    case _ => Secure
  }

  lemma StepLogs(w: World, s: Step) returns (fired: Option<Event>, pre: seq<Event>, post: seq<Event>)
    ensures fired.Some? ==> fired.value.Fired?
    ensures if fired.Some? then FiredOnce(w, Next(w, s), FiringPort(w, s), fired.value.gid, fired.value, pre, post)
            else FiredNone(w, Next(w, s), pre)
  {
    hide Handle, ReapAll, OnTimeout, CloseRemote, DroppedBy, FiredOnce;
    fired, pre, post := None, [], [];
    assert w.log == w.log + [];
    match s
    case Syn(_, _) =>
    case Connect(_, _, _, _) =>
    case Disconnect(port, remote) => pre := [Closed(remote, DroppedBy(w.reg, remote))];
    case Reap(port, stale) => pre := ReapLogs(w, port, stale);
    case Expire(t) => fired, pre := TimeoutLogs(w, t);
    case Request(port, remote, call) =>
      if Established(w, port, remote).Some? {
        fired, pre, post := HandleLogs(w, port, Established(w, port, remote).value, call);
      }
  }

  lemma {:induction false} ReapLogs(w: World, port: Port, stale: seq<Remote>) returns (es: seq<Event>)
    ensures FiredNone(w, ReapAll(w, port, stale), es)
    decreases stale
  {
    hide CloseRemote, DroppedBy;
    es := [];
    assert w.log == w.log + [];
    if stale != [] {
      var w1 := HandleDisconnect(w, port, stale[0]);
      var rest := ReapLogs(w1, port, stale[1..]);
      NoneLater(w, w1, ReapAll(w, port, stale), [Closed(stale[0], DroppedBy(w.reg, stale[0]))], rest);
      es := [Closed(stale[0], DroppedBy(w.reg, stale[0]))] + rest;
    }
  }

  lemma TimeoutLogs(w: World, t: TimerId) returns (fired: Option<Event>, pre: seq<Event>)
    ensures fired.Some? ==> fired.value.Fired? && t in w.timers
    ensures if fired.Some? then FiredOnce(w, OnTimeout(w, t), w.timers[t].port, fired.value.gid, fired.value, pre, [])
            else FiredNone(w, OnTimeout(w, t), pre)
  {
    hide Fire, StatsPushes;
    fired, pre := None, [];
    assert w.log == w.log + [];
    if t in w.timers && w.timers[t].gid in w.reg.byId {
      var w1, gid := w.(timers := w.timers - {t}), w.timers[t].gid;
      var l := w.reg.byId[gid];
      if l.received != {} && !(l.expected <= l.received) {
        FireLogs(w1, w.timers[t].port, gid, TimedOut);
        fired := Some(Fired(gid, TimedOut, l.received));
        FiredLater(w, w1, OnTimeout(w, t), w.timers[t].port, gid, fired.value, [], [], []);
        assert [] + pre == pre;
      }
    }
  }

  lemma HandleLogs(w: World, port: Port, id: ConnId, call: Call)
    returns (fired: Option<Event>, pre: seq<Event>, post: seq<Event>)
    requires id < |w.conns|
    ensures fired.Some? ==> fired.value.Fired?
    ensures if fired.Some? then FiredOnce(w, Handle(w, port, id, call), port, fired.value.gid, fired.value, pre, post)
            else FiredNone(w, Handle(w, port, id, call), pre)
  {
    hide FiredOnce, CreateGathering, JoinGathering, LeaveGathering, DestroyGathering, CloseParticipation,
         OpenParticipation,
         HandleEndGame, ReportStats;
    if call.Report? {
      fired, pre, post := ReportLogs(w, port, w.conns[id], call.params, call.writeOk);
    } else {
      fired, post := None, [];
      pre := HandleQuiet(w, port, id, call);
    }
  }

  lemma HandleQuiet(w: World, port: Port, id: ConnId, call: Call) returns (es: seq<Event>)
    requires id < |w.conns| && !call.Report?
    ensures FiredNone(w, Handle(w, port, id, call), es)
  {
    hide JoinGathering, LeaveGathering, DestroyGathering, CloseParticipation, HandleEndGame;
    match call
    case Create(raw) => es := [Created(w.reg.nextId, w.conns[id].userPid)];
    case Join(params) => es := MembershipSilent(w, port, id, w.conns[id], call, Handle(w, port, id, call));
    case Leave(params) => es := MembershipSilent(w, port, id, w.conns[id], call, Handle(w, port, id, call));
    case Destroy(params) => es := MembershipSilent(w, port, id, w.conns[id], call, Handle(w, port, id, call));
    case Close(params) => es := CloseUnsaved(w, params);
    case EndGame(params) => es := EndGameUnsaved(w, w.conns[id], params);
    case Open(_) | RegisterEx(_, _) =>
      es := [];
      assert w.log == w.log + [];
  }

  // ---- the theorem ----------------------------------------------------------------------------------

  // In every run, whichever step fires a batch: each participant of the lobby is sent its own push exactly once if
  // its remote is up on the firing port and not at all otherwise, with the id and cash it has after the step; and
  // these are all the stats pushes of the step.
  lemma FiresReachEveryone(steps: seq<Step>, s: Step, i: nat)
    requires var w := Run(START, steps); |w.log| <= i < |Next(w, s).log| && Next(w, s).log[i].Fired?
    ensures var w, w' := Run(START, steps), Next(Run(START, steps), s);
            var port, gid, logged := FiringPort(w, s), w'.log[i].gid, w'.log[|w.log|..];
            && gid in w.reg.byId
            && (forall p | p in w.reg.byId[gid].participants ::
                  multiset(logged)[StatsFor(w', port, gid, p)] == if Key(port, p.remote) in w.table then 1 else 0)
            && (forall e | e in logged && IsStats(e) ::
                  exists p :: p in w.reg.byId[gid].participants && Key(port, p.remote) in w.table
                              && e == StatsFor(w', port, gid, p))
  {
    hide Run, Next, StatsPushes, StatsFor;
    var w, w' := Run(START, steps), Next(Run(START, steps), s);
    InvRun(START, steps);
    var fired, pre, post := StepLogs(w, s);
    if fired.None? {
      QuietAt(w, w', pre, i);
    } else {
      EventOf(w, w', FiringPort(w, s), fired.value, pre, post, i);
      BlockReaches(w, w', FiringPort(w, s), fired.value.gid, fired.value, pre, post);
    }
  }

  lemma QuietAt(w: World, w': World, es: seq<Event>, i: nat)
    requires FiredNone(w, w', es) && |w.log| <= i < |w'.log|
    ensures !w'.log[i].Fired? && !IsStats(w'.log[i])
  {
    assert w'.log[i] == es[i - |w.log|];
  }

  // Where an event logged by a step that fires comes from.
  lemma EventOf(w: World, w': World, port: Port, fired: Event, pre: seq<Event>, post: seq<Event>, i: nat)
    requires fired.Fired? && FiredOnce(w, w', port, fired.gid, fired, pre, post)
    requires |w.log| <= i < |w'.log|
    ensures |w.log| + |pre| < |w'.log| && w'.log[|w.log| + |pre|] == fired
    ensures w'.log[i].Fired? ==> w'.log[i] == fired
    ensures IsStats(w'.log[i]) ==> |w.log| + |pre| < i && w'.log[i].push.gid == fired.gid
  {
    hide StatsPushes;
    var ps := w.reg.byId[fired.gid].participants;
    var pushes := StatsPushes(w.table, w'.txns, w'.db, port, fired.gid, ps);
    StatsSends(w.table, w'.txns, w'.db, port, fired.gid, ps);
    var k, rest := i - |w.log|, pushes + post;
    assert w'.log == w.log + (pre + ([fired] + rest));
    assert w'.log[i] == (pre + ([fired] + rest))[k];
    assert k > |pre| ==> w'.log[i] == rest[k - |pre| - 1];
  }

  lemma BlockReaches(w: World, w': World, port: Port, gid: Gid, fired: Event, pre: seq<Event>, post: seq<Event>)
    requires FiredOnce(w, w', port, gid, fired, pre, post) && Distinct(w.reg.byId[gid].participants)
    ensures var ps, logged := w.reg.byId[gid].participants, w'.log[|w.log|..];
            && (forall p | p in ps ::
                  multiset(logged)[StatsFor(w', port, gid, p)] == if Key(port, p.remote) in w.table then 1 else 0)
            && (forall e | e in logged && IsStats(e) ::
                  exists p :: p in ps && Key(port, p.remote) in w.table && e == StatsFor(w', port, gid, p))
  {
    hide StatsPushes, TxnOf, Career.CareerCash;
    var ps, logged := w.reg.byId[gid].participants, w'.log[|w.log|..];
    var pushes := StatsPushes(w.table, w'.txns, w'.db, port, gid, ps);
    var at := w'.(table := w.table);
    assert logged == pre + [fired] + pushes + post;
    assert multiset(logged) == multiset(pre) + multiset{fired} + multiset(pushes) + multiset(post);
    forall p | p in ps
      ensures multiset(logged)[StatsFor(w', port, gid, p)] == if Key(port, p.remote) in w.table then 1 else 0
    {
      PushedOnce(at, port, gid, ps, p);
      assert IsStats(StatsFor(w', port, gid, p)) && StatsFor(w', port, gid, p) !in pre
          && StatsFor(w', port, gid, p) !in post;
    }
    forall e | e in logged && IsStats(e)
      ensures exists p :: p in ps && Key(port, p.remote) in w.table && e == StatsFor(w', port, gid, p)
    {
      assert e in pushes;
      PushedOnly(at, port, gid, ps, e);
      var p :| p in ps && Key(port, p.remote) in w.table && e == StatsFor(at, port, gid, p);
      assert e == StatsFor(w', port, gid, p);
    }
  }

  // And nothing but a fire sends a stats push.
  lemma OnlyFiresPush(w: World, s: Step, i: nat)
    requires |w.log| <= i < |Next(w, s).log| && IsStats(Next(w, s).log[i])
    ensures exists j :: |w.log| <= j < i && Next(w, s).log[j].Fired?
                        && Next(w, s).log[j].gid == Next(w, s).log[i].push.gid
  {
    hide Next, StatsPushes;
    var w' := Next(w, s);
    var fired, pre, post := StepLogs(w, s);
    if fired.None? {
      QuietAt(w, w', pre, i);
    } else {
      EventOf(w, w', FiringPort(w, s), fired.value, pre, post, i);
    }
  }
}
