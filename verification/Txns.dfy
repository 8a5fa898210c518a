/**
  Transaction ids: each player's m=12 replies count 1, 2, 3, ..., the ids pushed
  to a player never go down, and a batch a player reported in brings it an id
  larger than that lobby's earlier batches did.
*/
module Txns {
  import opened Options
  import opened Bytes
  import opened Numbers
  import opened Lobbies
  import opened Machine
  import opened Invariants
  import opened Batch

  // What the log says about one player's ids, as far as one lobby is concerned.
  datatype Ids = Ids(
    consumed: nat,  // ids the player has used up
    top: nat,       // largest id any batch pushed to it
    topIn: int,     // largest id this lobby's batches pushed to it, -1 without any
    bar: int)       // `topIn` when this lobby last fired a batch the player had reported in

  const NONE: Ids := Ids(0, 0, -1, -1)

  function Count(h: Ids, gid: Gid, pid: Pid, e: Event): Ids {
    match e
    case Replied(p, _) => if p == pid then h.(consumed := h.consumed + 1) else h
    case Burned(p, _) => if p == pid then h.(consumed := h.consumed + 1) else h
    case Fired(g, _, reported) => if g == gid && pid in reported then h.(bar := h.topIn) else h
    case Sent(_, _, Stats(g, p, txn, _)) =>
      if p != pid then h
      else h.(top := Max(h.top, txn), topIn := if g == gid then Max(h.topIn, txn) else h.topIn)
    case _ => h
  }

  function IdsOf(log: seq<Event>, gid: Gid, pid: Pid): Ids {
    if log == [] then NONE else Count(IdsOf(log[..|log| - 1], gid, pid), gid, pid, log[|log| - 1])
  }

  // An event that is right about the ids, given what came before it: a reply carries the next id, a push
  // carries at least the player's largest so far, and more than its lobby gave it before the last batch
  // the player reported in.
  predicate Right(log: seq<Event>, e: Event) {
    match e
    case Replied(p, txn) => txn == IdsOf(log, 0, p).consumed + 1
    case Burned(p, txn) => txn == IdsOf(log, 0, p).consumed + 1
    case Sent(_, _, Stats(g, p, txn, _)) => IdsOf(log, g, p).top <= txn && IdsOf(log, g, p).bar < txn
    case _ => true
  }

  predicate AllRight(log: seq<Event>) { forall i | 0 <= i < |log| :: Right(log[..i], log[i]) }

  lemma IdsSnoc(log: seq<Event>, e: Event, gid: Gid, pid: Pid)
    ensures IdsOf(log + [e], gid, pid) == Count(IdsOf(log, gid, pid), gid, pid, e)
  {
    assert (log + [e])[..|log|] == log;
  }

  lemma RightSnoc(log: seq<Event>, e: Event)
    requires AllRight(log) && Right(log, e)
    ensures AllRight(log + [e])
  {
    forall i | 0 <= i < |log + [e]| ensures Right((log + [e])[..i], (log + [e])[i]) {
      assert (log + [e])[..i] == log[..i];
    }
  }

  // Events that use up and push no ids.
  predicate IdFree(e: Event) {
    !e.Replied? && !e.Burned? && !e.Fired? && !(e.Sent? && e.push.Stats?)
  }

  predicate AllIdFree(es: seq<Event>) { forall i | 0 <= i < |es| :: IdFree(es[i]) }

  lemma {:induction false} IdsFree(log: seq<Event>, es: seq<Event>, gid: Gid, pid: Pid)
    requires AllIdFree(es)
    ensures IdsOf(log + es, gid, pid) == IdsOf(log, gid, pid)
    ensures AllRight(log) ==> AllRight(log + es)
  {
    if es == [] {
      assert log + es == log;
    } else {
      var init, last := es[..|es| - 1], es[|es| - 1];
      IdsFree(log, init, gid, pid);
      IdsSnoc(log + init, last, gid, pid);
      if AllRight(log) {
        RightSnoc(log + init, last);
      }
      assert log + es == (log + init) + [last];
    }
  }

  // ---- the invariant -------------------------------------------------------------------------

  // `open`, if any, is a player whose new id is already counted in the table but not yet used in the log.
  predicate Matches(h: Ids, pid: Pid, txn: nat, open: Option<Pid>) {
    h.consumed + (if open == Some(pid) then 1 else 0) == txn && h.top <= txn && h.topIn <= txn && h.bar < txn
  }

  ghost predicate Counts(log: seq<Event>, txns: map<Pid, nat>, open: Option<Pid>) {
    AllRight(log) && forall g, p :: Matches(IdsOf(log, g, p), p, TxnOf(txns, p), open)
  }

  // A player that has reported in the running batch has an id above all this lobby ever pushed to it.
  ghost predicate Fresh(log: seq<Event>, txns: map<Pid, nat>, r: Registry) {
    forall g, p | g in r.byId && p in r.byId[g].received :: IdsOf(log, g, p).topIn < TxnOf(txns, p)
  }

  ghost predicate IdsOk(w: World, open: Option<Pid>) { Counts(w.log, w.txns, open) && Fresh(w.log, w.txns, w.reg) }

  // A step without ids in which no batch gains a reporter.
  lemma IdsOkFree(w: World, w': World, es: seq<Event>, open: Option<Pid>)
    requires IdsOk(w, open) && w'.txns == w.txns && w'.log == w.log + es && AllIdFree(es)
    requires forall g | g in w'.reg.byId ::
               w'.reg.byId[g].received == {} || (g in w.reg.byId && w'.reg.byId[g].received <= w.reg.byId[g].received)
    ensures IdsOk(w', open)
  {
    forall g, p ensures IdsOf(w'.log, g, p) == IdsOf(w.log, g, p) { IdsFree(w.log, es, g, p); }
    IdsFree(w.log, es, 0, 0);
  }

  lemma CountsFired(log: seq<Event>, txns: map<Pid, nat>, open: Option<Pid>, gid: Gid, reason: Reason,
                    reported: set<Pid>)
    requires Counts(log, txns, open) && forall p | p in reported :: IdsOf(log, gid, p).topIn < TxnOf(txns, p)
    ensures Counts(log + [Fired(gid, reason, reported)], txns, open)
  {
    var e := Fired(gid, reason, reported);
    RightSnoc(log, e);
    forall g, p ensures Matches(IdsOf(log + [e], g, p), p, TxnOf(txns, p), open) {
      IdsSnoc(log, e, g, p);
      assert Matches(IdsOf(log, g, p), p, TxnOf(txns, p), open);
    }
  }

  lemma CountsStats(log: seq<Event>, txns: map<Pid, nat>, open: Option<Pid>, e: Event)
    requires Counts(log, txns, open) && e.Sent? && e.push.Stats? && e.push.txn == TxnOf(txns, e.push.recipient)
    ensures Counts(log + [e], txns, open)
  {
    assert Matches(IdsOf(log, e.push.gid, e.push.recipient), e.push.recipient, e.push.txn, open);
    RightSnoc(log, e);
    forall g, p ensures Matches(IdsOf(log + [e], g, p), p, TxnOf(txns, p), open) {
      IdsSnoc(log, e, g, p);
      assert Matches(IdsOf(log, g, p), p, TxnOf(txns, p), open);
    }
  }

  // A batch's pushes keep the counts and do not touch what other lobbies pushed.
  lemma {:induction false} CountsPushes(log: seq<Event>, es: seq<Event>, txns: map<Pid, nat>, open: Option<Pid>,
                                        gid: Gid)
    requires Counts(log, txns, open)
    requires AllCarryStats(es, txns, gid)
    ensures Counts(log + es, txns, open)
    ensures forall g, p | g != gid :: IdsOf(log + es, g, p).topIn == IdsOf(log, g, p).topIn
  {
    if es == [] {
      assert log + es == log;
    } else {
      var init, last := es[..|es| - 1], es[|es| - 1];
      CountsPushes(log, init, txns, open, gid);
      CountsStats(log + init, txns, open, last);
      assert log + es == (log + init) + [last];
      forall g, p | g != gid ensures IdsOf(log + es, g, p).topIn == IdsOf(log, g, p).topIn {
        IdsSnoc(log + init, last, g, p);
      }
    }
  }

  lemma IdsOkFire(w: World, port: Port, gid: Gid, reason: Reason, open: Option<Pid>)
    requires IdsOk(w, open) && gid in w.reg.byId && w.reg.byId[gid].received != {}
    ensures IdsOk(Fire(w, port, gid, reason), open)
  {
    var l := w.reg.byId[gid];
    var fired := Fired(gid, reason, l.received);
    var log1 := w.log + [fired];
    var es := StatsPushes(w.table, w.txns, w.db, port, gid, l.participants);
    var w' := Fire(w, port, gid, reason);
    CountsFired(w.log, w.txns, open, gid, reason, l.received);
    StatsSends(w.table, w.txns, w.db, port, gid, l.participants);
    CountsPushes(log1, es, w.txns, open, gid);
    forall g, p | g in w'.reg.byId && p in w'.reg.byId[g].received
      ensures IdsOf(w'.log, g, p).topIn < TxnOf(w'.txns, p)
    {
      IdsSnoc(w.log, fired, g, p);
    }
  }

  // One more reporter, whose id is new.
  lemma IdsOkRecord(w: World, port: Port, gid: Gid, pid: Pid, open: Option<Pid>)
    requires IdsOk(w, open) && gid in w.reg.byId && IdsOf(w.log, gid, pid).topIn < TxnOf(w.txns, pid)
    ensures IdsOk(Record(w, port, gid, pid), open)
  {
    var l := w.reg.byId[gid].(received := w.reg.byId[gid].received + {pid});
    var w1 := w.(reg := Put(w.reg, gid, l), log := w.log + [Reported(gid, pid)]);
    var w0 := w.(reg := w1.reg);
    assert IdsOk(w0, open);
    IdsOkFree(w0, w1, [Reported(gid, pid)], open);
    if l.expected <= l.received {
      IdsOkFire(w1, port, gid, AllReported, open);
    } else if l.timer.None? {
      IdsOkFree(w1, Arm(w1, port, gid), [Armed(w1.nextTimer, gid)], open);
    }
  }

  lemma IdsOkSeeded(w: World, gid: Gid, open: Option<Pid>)
    requires IdsOk(w, open) && gid in w.reg.byId
    ensures IdsOk(Seeded(w, gid), open)
    ensures forall g, p :: IdsOf(Seeded(w, gid).log, g, p) == IdsOf(w.log, g, p)
  {
    var l := w.reg.byId[gid];
    if l.expected == {} {
      var es := [Snapshot(gid, Pids(l.participants))];
      IdsOkFree(w, Seeded(w, gid), es, open);
      forall g, p ensures IdsOf(Seeded(w, gid).log, g, p) == IdsOf(w.log, g, p) { IdsFree(w.log, es, g, p); }
    }
  }

  // Taking the next id: everything pushed to the player so far is below it.
  lemma IdsOkTake(w: World, pid: Pid)
    requires IdsOk(w, None)
    ensures IdsOk(w.(txns := w.txns[pid := TxnOf(w.txns, pid) + 1]), Some(pid))
    ensures forall g :: IdsOf(w.log, g, pid).topIn < TxnOf(w.txns, pid) + 1
  {
    var txns := w.txns[pid := TxnOf(w.txns, pid) + 1];
    forall g, p ensures Matches(IdsOf(w.log, g, p), p, TxnOf(txns, p), Some(pid)) {
      assert Matches(IdsOf(w.log, g, p), p, TxnOf(w.txns, p), None);
    }
    forall g ensures IdsOf(w.log, g, pid).topIn < TxnOf(w.txns, pid) + 1 {
      assert Matches(IdsOf(w.log, g, pid), pid, TxnOf(w.txns, pid), None);
    }
  }

  // Using it.
  lemma IdsOkUse(w: World, w': World, pid: Pid, e: Event)
    requires IdsOk(w, Some(pid)) && (e == Replied(pid, TxnOf(w.txns, pid)) || e == Burned(pid, TxnOf(w.txns, pid)))
    requires w'.log == w.log + [e] && w'.txns == w.txns && w'.reg == w.reg
    ensures IdsOk(w', None)
  {
    assert Matches(IdsOf(w.log, 0, pid), pid, TxnOf(w.txns, pid), Some(pid));
    RightSnoc(w.log, e);
    forall g, p ensures IdsOf(w'.log, g, p) == Count(IdsOf(w.log, g, p), g, p, e) { IdsSnoc(w.log, e, g, p); }
    forall g, p ensures Matches(IdsOf(w'.log, g, p), p, TxnOf(w'.txns, p), None) {
      assert Matches(IdsOf(w.log, g, p), p, TxnOf(w.txns, p), Some(pid));
    }
  }

  lemma IdsOkCounted(w: World, port: Port, pid: Pid, v0: seq<Word>)
    requires IdsOk(w, None)
    ensures IdsOk(Counted(w, port, pid, v0), None)
  {
    var txn := TxnOf(w.txns, pid) + 1;
    var w1 := w.(txns := w.txns[pid := txn]);
    IdsOkTake(w, pid);
    if !Loggable(v0) {
      IdsOkUse(w1, Counted(w, port, pid, v0), pid, Burned(pid, txn));
    } else {
      IdsOkAttributed(w1, port, pid);
      IdsOkUse(Attributed(w1, port, pid), Counted(w, port, pid, v0), pid, Replied(pid, txn));
    }
  }

  lemma IdsOkAttributed(w: World, port: Port, pid: Pid)
    requires IdsOk(w, Some(pid)) && forall g :: IdsOf(w.log, g, pid).topIn < TxnOf(w.txns, pid)
    ensures IdsOk(Attributed(w, port, pid), Some(pid)) && Attributed(w, port, pid).txns == w.txns
  {
    var home := FirstWith(w.reg, w.reg.order, pid);
    if home.Some? {
      IdsOkAttribute(w, port, home.value, pid);
      AttributeOnlyBatch(w, port, home.value, pid);
    }
  }

  lemma IdsOkAttribute(w: World, port: Port, gid: Gid, pid: Pid)
    requires IdsOk(w, Some(pid)) && gid in w.reg.byId && IdsOf(w.log, gid, pid).topIn < TxnOf(w.txns, pid)
    ensures IdsOk(Attribute(w, port, gid, pid), Some(pid))
  {
    IdsOkSeeded(w, gid, Some(pid));
    IdsOkRecord(Seeded(w, gid), port, gid, pid, Some(pid));
  }

  lemma IdsOkReport(w: World, port: Port, c: Conn, params: seq<Byte>, writeOk: bool)
    requires IdsOk(w, None)
    ensures IdsOk(ReportStats(w, port, c, params, writeOk), None)
  {
    var counted, w1, es, v0 := ReportParts(w, port, c, params, writeOk);
    if counted {
      IdsOkFree(w, w1, es, None);
      IdsOkCounted(w1, port, c.userPid, v0);
    }
  }

  lemma IdsOkDisconnect(w: World, port: Port, remote: Remote)
    requires Inv(w) && IdsOk(w, None)
    ensures IdsOk(HandleDisconnect(w, port, remote), None)
  {
    CloseConsistent(w.reg, remote);
    IdsOkFree(w, HandleDisconnect(w, port, remote), [Closed(remote, DroppedBy(w.reg, remote))], None);
  }

  lemma {:induction false} IdsOkReap(w: World, port: Port, stale: seq<Remote>)
    requires Inv(w) && IdsOk(w, None)
    ensures IdsOk(ReapAll(w, port, stale), None)
    decreases stale
  {
    if stale != [] {
      InvDisconnect(w, port, stale[0]);
      IdsOkDisconnect(w, port, stale[0]);
      IdsOkReap(HandleDisconnect(w, port, stale[0]), port, stale[1..]);
    }
  }

  lemma IdsOkMembership(w: World, port: Port, id: ConnId, call: Call)
    requires IdsOk(w, None) && id < |w.conns| && (call.Join? || call.Leave? || call.Destroy?)
    ensures IdsOk(Handle(w, port, id, call), None)
  {
    var es := MembershipSilent(w, port, id, w.conns[id], call, Handle(w, port, id, call));
    IdsOkFree(w, Handle(w, port, id, call), es, None);
  }

  lemma IdsOkClose(w: World, params: seq<Byte>)
    requires IdsOk(w, None)
    ensures IdsOk(CloseParticipation(w, params), None)
  {
    if GidOf(params) in w.reg.byId {
      var w1 := w.(reg := SetClosed(w.reg, GidOf(params), true));
      assert w1.log == w.log + [];
      IdsOkFree(w, w1, [], None);
      IdsOkSeeded(w1, GidOf(params), None);
    }
  }

  lemma IdsOkEndGame(w: World, c: Conn, params: seq<Byte>)
    requires IdsOk(w, None)
    ensures IdsOk(HandleEndGame(w, c, params), None)
  {
    var target := EndGameTarget(w, GidOf(params), c.userPid);
    if target.Some? {
      IdsOkFree(w, CancelBatch(w, target.value), [Cancelled(target.value)], None);
    }
  }

  lemma IdsOkHandle(w: World, port: Port, id: ConnId, call: Call)
    requires IdsOk(w, None) && id < |w.conns|
    ensures IdsOk(Handle(w, port, id, call), None)
  {
    var c := w.conns[id];
    match call
    case RegisterEx(lan, wan) =>
    case Create(raw) => IdsOkFree(w, CreateGathering(w, id, c, raw), [Created(w.reg.nextId, c.userPid)], None);
    case Join(params) => IdsOkMembership(w, port, id, call);
    case Leave(params) => IdsOkMembership(w, port, id, call);
    case Destroy(params) => IdsOkMembership(w, port, id, call);
    case Close(params) => IdsOkClose(w, params);
    case Open(params) =>
      assert w.log == w.log + [];
      IdsOkFree(w, OpenParticipation(w, params), [], None);
    case Report(params, writeOk) => IdsOkReport(w, port, c, params, writeOk);
    case EndGame(params) => IdsOkEndGame(w, c, params);
  }

  lemma IdsOkNext(w: World, s: Step)
    requires Inv(w) && IdsOk(w, None)
    ensures IdsOk(Next(w, s), None)
  {
    match s
    case Syn(port, remote) =>
    case Connect(port, remote, signatureOk, ticket) =>
    case Disconnect(port, remote) => IdsOkDisconnect(w, port, remote);
    case Reap(port, stale) => IdsOkReap(w, port, stale);
    case Expire(t) =>
      if t in w.timers && w.timers[t].gid in w.reg.byId {
        IdsOkFire(w.(timers := w.timers - {t}), w.timers[t].port, w.timers[t].gid, TimedOut, None);
      }
    case Request(port, remote, call) =>
      if Established(w, port, remote).Some? {
        IdsOkHandle(w, port, Established(w, port, remote).value, call);
      }
  }

  lemma {:induction false} IdsOkRun(w: World, steps: seq<Step>)
    requires Inv(w) && IdsOk(w, None)
    ensures IdsOk(Run(w, steps), None)
    decreases steps
  {
    if steps != [] {
      InvNext(w, steps[0]);
      IdsOkNext(w, steps[0]);
      IdsOkRun(Next(w, steps[0]), steps[1..]);
    }
  }

  lemma StartIds()
    ensures IdsOk(START, None)
  {
  }

  // ---- pushes ------------------------------------------------------------------------------------

  // The id as written: `w_u32` keeps 32 bits.
  function OnWire(txn: nat): Word { txn % 0x1_0000_0000 }

  predicate Pushes(e: Event, gid: Gid, pid: Pid) {
    e.Sent? && e.push.Stats? && e.push.gid == gid && e.push.recipient == pid
  }

  lemma {:induction false} TopCovers(log: seq<Event>, g: Gid, gid: Gid, pid: Pid, i: nat)
    requires i < |log| && Pushes(log[i], gid, pid)
    ensures log[i].push.txn <= IdsOf(log, g, pid).top
    ensures g == gid ==> log[i].push.txn <= IdsOf(log, g, pid).topIn
  {
    if i < |log| - 1 {
      TopCovers(log[..|log| - 1], g, gid, pid, i);
    }
  }

  lemma {:induction false} TopInGrows(log: seq<Event>, gid: Gid, pid: Pid)
    ensures IdsOf(log, gid, pid).bar <= IdsOf(log, gid, pid).topIn
  {
    if log != [] {
      TopInGrows(log[..|log| - 1], gid, pid);
    }
  }

  lemma {:induction false} BarCovers(log: seq<Event>, gid: Gid, pid: Pid, i: nat, k: nat)
    requires i < k < |log| && Pushes(log[i], gid, pid)
    requires log[k].Fired? && log[k].gid == gid && pid in log[k].reported
    ensures log[i].push.txn <= IdsOf(log, gid, pid).bar
  {
    var init := log[..|log| - 1];
    if k == |log| - 1 {
      TopCovers(init, gid, gid, pid, i);
    } else {
      BarCovers(init, gid, pid, i, k);
      TopInGrows(init, gid, pid);
    }
  }

  // Any two pushes to one player, the later below 2^32: the id never goes down on the wire, and it goes up
  // if both come from one lobby and the player reported in a batch fired in between.
  lemma PushedIdsRise(steps: seq<Step>, gid: Gid, gid': Gid, pid: Pid, i: nat, j: nat)
    requires i < j < |Run(START, steps).log|
    requires Pushes(Run(START, steps).log[i], gid, pid) && Pushes(Run(START, steps).log[j], gid', pid)
    requires Run(START, steps).log[j].push.txn < 0x1_0000_0000
    ensures var log := Run(START, steps).log;
            && OnWire(log[i].push.txn) <= OnWire(log[j].push.txn)
            && (gid == gid' && (exists k :: i < k < j && log[k].Fired? && log[k].gid == gid && pid in log[k].reported)
                ==> OnWire(log[i].push.txn) < OnWire(log[j].push.txn))
  {
    hide Run, IdsOf;
    var log := Run(START, steps).log;
    StartIds();
    IdsOkRun(START, steps);
    assert Right(log[..j], log[j]);
    TopCovers(log[..j], gid', gid, pid, i);
    if k :| i < k < j && log[k].Fired? && log[k].gid == gid && pid in log[k].reported && gid == gid' {
      BarCovers(log[..j], gid, pid, i, k);
    }
  }
}
