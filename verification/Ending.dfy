/**
  Every batch that starts ends: whatever else happens, its lobby is gone or the
  batch has been fired or cancelled by the time its own timer has run out.
*/
module Ending {
  import opened Options
  import opened Bytes
  import opened Lobbies
  import opened Machine
  import opened Invariants
  import opened Batch
  import opened Orphans
  import opened MatchLog

  // Batches of the lobby fired or cancelled so far.
  function Ended(w: World, gid: Gid): nat { HistoryOf(w.log, gid).ended }

  // No new lobby gets the id.
  predicate NoBirth(gid: Gid, es: seq<Event>) {
    forall i | 0 <= i < |es| && es[i].Created? :: es[i].gid != gid
  }

  lemma {:induction false} EndedAppend(log: seq<Event>, es: seq<Event>, gid: Gid)
    requires NoBirth(gid, es)
    ensures HistoryOf(log + es, gid).ended >= HistoryOf(log, gid).ended
  {
    if es == [] {
      assert log + es == log;
    } else {
      var init, last := es[..|es| - 1], es[|es| - 1];
      EndedAppend(log, init, gid);
      HistorySnoc(log + init, last, gid);
      assert log + es == (log + init) + [last];
    }
  }

  // What one request appends to the log never includes the birth of a lobby that exists.
  lemma HandleNoBirth(w: World, port: Port, id: ConnId, call: Call, gid: Gid) returns (es: seq<Event>)
    requires id < |w.conns| && gid < w.reg.nextId
    ensures Handle(w, port, id, call).log == w.log + es && NoBirth(gid, es)
  {
    hide CreateGathering, JoinGathering, LeaveGathering, DestroyGathering, CloseParticipation, ReportStats,
         HandleEndGame,
         OpenParticipation;
    match call
    case Create(raw) => es := CreateNoBirth(w, id, raw, gid);
    case Join(params) => es := MembershipSilent(w, port, id, w.conns[id], call, Handle(w, port, id, call));
    case Leave(params) => es := MembershipSilent(w, port, id, w.conns[id], call, Handle(w, port, id, call));
    case Destroy(params) => es := MembershipSilent(w, port, id, w.conns[id], call, Handle(w, port, id, call));
    case RegisterEx(_, _) => es := MatchEvents(w, port, id, call);
    case Close(_) => es := MatchEvents(w, port, id, call);
    case Open(_) => es := MatchEvents(w, port, id, call);
    case Report(_, _) => es := MatchEvents(w, port, id, call);
    case EndGame(_) => es := MatchEvents(w, port, id, call);
  }

  lemma CreateNoBirth(w: World, id: ConnId, raw: seq<Byte>, gid: Gid) returns (es: seq<Event>)
    requires id < |w.conns| && gid < w.reg.nextId
    ensures CreateGathering(w, id, w.conns[id], raw).log == w.log + es && NoBirth(gid, es)
  {
    es := [Created(w.reg.nextId, w.conns[id].userPid)];
  }

  lemma {:induction false} EndedReap(w: World, port: Port, stale: seq<Remote>, gid: Gid)
    ensures Ended(ReapAll(w, port, stale), gid) >= Ended(w, gid)
    decreases stale
  {
    hide CloseRemote, DroppedBy, HistoryOf;
    if stale != [] {
      EndedAppend(w.log, [Closed(stale[0], DroppedBy(w.reg, stale[0]))], gid);
      EndedReap(HandleDisconnect(w, port, stale[0]), port, stale[1..], gid);
    }
  }

  lemma EndedTimeout(w: World, t: TimerId, gid: Gid)
    ensures Ended(OnTimeout(w, t), gid) >= Ended(w, gid)
  {
    hide HistoryOf, Fire;
    if t in w.timers && w.timers[t].gid in w.reg.byId {
      var w1 := w.(timers := w.timers - {t});
      var es := FireEvents(w1, w.timers[t].port, w.timers[t].gid, TimedOut);
      EndedAppend(w.log, es, gid);
    }
  }

  // The count of ended batches of an existing lobby never goes down.
  lemma EndedNext(w: World, s: Step, gid: Gid)
    requires gid < w.reg.nextId
    ensures Ended(Next(w, s), gid) >= Ended(w, gid)
  {
    hide HistoryOf, Handle, ReapAll, OnTimeout, CloseRemote, DroppedBy;
    match s
    case Disconnect(port, remote) => EndedAppend(w.log, [Closed(remote, DroppedBy(w.reg, remote))], gid);
    case Reap(port, stale) => EndedReap(w, port, stale, gid);
    case Expire(t) => EndedTimeout(w, t, gid);
    case Request(port, remote, call) =>
      if Established(w, port, remote).Some? {
        var es := HandleNoBirth(w, port, Established(w, port, remote).value, call, gid);
        EndedAppend(w.log, es, gid);
      }
    case Syn(_, _) =>
    case Connect(_, _, _, _) =>
  }

  lemma {:induction false} EndedRun(w: World, steps: seq<Step>, gid: Gid)
    requires Inv(w) && gid in w.reg.byId
    ensures gid in Run(w, steps).reg.byId ==> Ended(Run(w, steps), gid) >= Ended(w, gid)
    decreases steps
  {
    hide Ended, Next, Inv;
    if steps != [] {
      var w1 := Next(w, steps[0]);
      InvNext(w, steps[0]);
      LiveOrRetired(w, steps[0], gid);
      if gid in w1.reg.byId {
        EndedNext(w, steps[0], gid);
        EndedRun(w1, steps[1..], gid);
      } else {
        IdsNeverReused(w1, steps[1..], gid);
      }
    }
  }

  // A lobby that exists has a used id, and after a step it still exists or its id is retired for good.
  lemma LiveOrRetired(w: World, s: Step, gid: Gid)
    requires Inv(w) && gid in w.reg.byId
    ensures gid < w.reg.nextId && (gid in Next(w, s).reg.byId || Retired(Next(w, s).reg, gid))
  {
    hide TableOk, HostsOk, TimersOk, LobbiesOk, Handle, OnTimeout, HandleSyn, HandleConnect, HandleDisconnect, ReapAll;
    match s
    case Request(port, remote, call) =>
      if Established(w, port, remote).Some? { NextIdHandle(w, port, Established(w, port, remote).value, call); }
    case Disconnect(port, remote) => NextIdClose(w, port, remote);
    case Reap(port, stale) => NextIdReap(w, port, stale);
    case Expire(t) => NextIdTimeout(w, t);
    case Syn(port, remote) => NextIdSyn(w, port, remote);
    case Connect(port, remote, ok, ticket) => NextIdConnect(w, port, remote, ok, ticket);
  }

  lemma NextIdSyn(w: World, port: Port, remote: Remote)
    ensures HandleSyn(w, port, remote).reg == w.reg
  {
  }

  lemma NextIdConnect(w: World, port: Port, remote: Remote, ok: bool, ticket: Option<Pid>)
    ensures HandleConnect(w, port, remote, ok, ticket).reg == w.reg
  {
  }

  lemma NextIdClose(w: World, port: Port, remote: Remote)
    requires Consistent(w.reg)
    ensures HandleDisconnect(w, port, remote).reg.nextId == w.reg.nextId
  {
    CloseConsistent(w.reg, remote);
  }

  lemma {:induction false} NextIdReap(w: World, port: Port, stale: seq<Remote>)
    requires Consistent(w.reg)
    ensures ReapAll(w, port, stale).reg.nextId == w.reg.nextId
    decreases stale
  {
    if stale != [] {
      CloseConsistent(w.reg, stale[0]);
      NextIdReap(HandleDisconnect(w, port, stale[0]), port, stale[1..]);
    }
  }

  lemma NextIdTimeout(w: World, t: TimerId)
    ensures OnTimeout(w, t).reg.nextId == w.reg.nextId
  {
    hide StatsPushes, Unarmed;
  }

  lemma NextIdHandle(w: World, port: Port, id: ConnId, call: Call)
    requires id < |w.conns|
    ensures Handle(w, port, id, call).reg.nextId >= w.reg.nextId
  {
    hide Admits, JoinEvents, LeaveEvents, ReportStats, CloseParticipation, HandleEndGame;
    if MatchCall(call) {
      MatchSamePeople(w, port, id, call);
    }
  }

  // However the run goes on, once the timer that was running when the batch was open has expired, the lobby is
  // gone or one more of its batches has ended.
  lemma {:induction false} BatchEnds(w: World, steps: seq<Step>, gid: Gid, t: TimerId)
    requires Inv(w) && Recorded(w) && gid in w.reg.byId && w.reg.byId[gid].received != {}
    requires w.reg.byId[gid].timer == Some(t)
    ensures var w' := Next(Run(w, steps), Expire(t));
            gid in w'.reg.byId ==> Ended(w', gid) > Ended(w, gid)
    decreases |steps|, 0
  {
    hide Inv, Recorded, StillOpen, JustEnded, Ended, Next;
    if steps == [] {
      RunNone(w);
      TimerEnds(w, gid, t);
    } else {
      var s, rest := steps[0], steps[1..];
      var w1 := Next(w, s);
      assert steps == [s] + rest;
      RunFirst(w, s, rest);
      InvNext(w, s);
      RecordedNext(w, s);
      LiveOrRetired(w, s, gid);
      OpenBatchProgress(w, s, gid);
      AfterStep(w, w1, rest, gid, t);
    }
  }

  lemma TimerEnds(w: World, gid: Gid, t: TimerId)
    requires Inv(w) && gid in w.reg.byId && w.reg.byId[gid].received != {} && w.reg.byId[gid].timer == Some(t)
    ensures gid in Next(w, Expire(t)).reg.byId && Ended(Next(w, Expire(t)), gid) > Ended(w, gid)
  {
    hide Consistent, TableOk, HostsOk, RosterOk, Fire;
    var w1 := w.(timers := w.timers - {t});
    assert Next(w, Expire(t)) == Fire(w1, w.timers[t].port, gid, TimedOut);
    FireEnds(w1, w.timers[t].port, gid);
  }

  lemma FireEnds(w: World, port: Port, gid: Gid)
    requires gid in w.reg.byId && w.reg.byId[gid].received != {}
    ensures gid in Fire(w, port, gid, TimedOut).reg.byId && Ended(Fire(w, port, gid, TimedOut), gid) > Ended(w, gid)
  {
    hide HistoryOf, Unarmed, StatsPushes;
    var l := w.reg.byId[gid];
    var fired := Fired(gid, TimedOut, l.received);
    HistorySnoc(w.log, fired, gid);
    StatsSilent(w.table, w.txns, w.db, port, gid, l.participants);
    HistorySilent(w.log + [fired], StatsPushes(w.table, w.txns, w.db, port, gid, l.participants), gid);
  }

  // The induction step, by what one step may do to an open batch.
  lemma {:induction false} AfterStep(w: World, w1: World, rest: seq<Step>, gid: Gid, t: TimerId)
    requires gid in w.reg.byId && w.reg.byId[gid].received != {} && w.reg.byId[gid].timer == Some(t)
    requires Inv(w1) && Recorded(w1) && (gid in w1.reg.byId || Retired(w1.reg, gid))
    requires gid in w1.reg.byId ==> StillOpen(w, w1, gid) || JustEnded(w, w1, gid)
    ensures var w' := Next(Run(w1, rest), Expire(t));
            gid in w'.reg.byId ==> Ended(w', gid) > Ended(w, gid)
    decreases |rest|, 1
  {
    hide Inv, Recorded, Next, Run;
    var w' := Next(Run(w1, rest), Expire(t));
    RunSnoc(w1, rest, Expire(t));
    if gid !in w1.reg.byId {
      IdsNeverReused(w1, rest + [Expire(t)], gid);
    } else if StillOpen(w, w1, gid) {
      BatchEnds(w1, rest, gid, t);
    } else {
      EndedRun(w1, rest + [Expire(t)], gid);
    }
  }

  // From any reachable state: a running timer means an open batch, and whatever happens before that timer
  // expires, afterwards the lobby is gone or one more of its batches has been fired or cancelled.
  lemma EveryBatchEnds(before: seq<Step>, after: seq<Step>, gid: Gid, t: TimerId)
    requires gid in Run(START, before).reg.byId && Run(START, before).reg.byId[gid].timer == Some(t)
    ensures var w, w' := Run(START, before), Next(Run(Run(START, before), after), Expire(t));
            && w.reg.byId[gid].received != {}
            && (gid in w'.reg.byId ==> Ended(w', gid) > Ended(w, gid))
  {
    hide Recorded, Ended, Next, Run;
    RecordedRun(START, before);
    BatchEnds(Run(START, before), after, gid, t);
  }
}
