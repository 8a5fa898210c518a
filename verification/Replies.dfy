/**
  The ids of a player's m=12 replies: they count 1, 2, 3, ... without a gap
  exactly if no upload of the player raised after taking its id and was
  followed by an answered one. Both are decided by the bytes of the upload.
*/
module Replies {
  import opened Options
  import opened Bytes
  import opened Numbers
  import opened Lobbies
  import opened Machine
  import opened Invariants
  import opened Batch
  import opened MatchLog
  import opened Txns
  import opened Saves
  import SparkStats
  import Career
  import Floats

  // The ids of a player's m=12 replies, in order.
  function Replies(log: seq<Event>, pid: Pid): seq<nat> {
    if log == [] then []
    else
      var e := log[|log| - 1];
      var before := Replies(log[..|log| - 1], pid);
      if e.Replied? && e.pid == pid then before + [e.txn] else before
  }

  // How many of a player's reports raised after taking their id.
  function Burns(log: seq<Event>, pid: Pid): nat {
    if log == [] then 0
    else
      var e := log[|log| - 1];
      Burns(log[..|log| - 1], pid) + if e.Burned? && e.pid == pid then 1 else 0
  }

  lemma NumbersSnoc(log: seq<Event>, e: Event, pid: Pid)
    ensures Replies(log + [e], pid) == Replies(log, pid) + if e.Replied? && e.pid == pid then [e.txn] else []
    ensures Burns(log + [e], pid) == Burns(log, pid) + if e.Burned? && e.pid == pid then 1 else 0
  {
    assert (log + [e])[..|log|] == log;
    assert Replies(log, pid) + [] == Replies(log, pid);
  }

  predicate Unnumbered(e: Event) { !e.Replied? && !e.Burned? }

  predicate AllUnnumbered(es: seq<Event>) { forall i | 0 <= i < |es| :: Unnumbered(es[i]) }

  lemma {:induction false} NumbersKept(log: seq<Event>, es: seq<Event>, pid: Pid)
    requires AllUnnumbered(es)
    ensures Replies(log + es, pid) == Replies(log, pid) && Burns(log + es, pid) == Burns(log, pid)
    decreases |es|
  {
    if es == [] {
      assert log + es == log;
    } else {
      var init, last := es[..|es| - 1], es[|es| - 1];
      NumbersKept(log, init, pid);
      NumbersSnoc(log + init, last, pid);
      assert log + es == (log + init) + [last];
    }
  }

  lemma {:induction false} ConsumedIsRepliesAndBurns(log: seq<Event>, pid: Pid)
    ensures IdsOf(log, 0, pid).consumed == |Replies(log, pid)| + Burns(log, pid)
  {
    if log != [] {
      ConsumedIsRepliesAndBurns(log[..|log| - 1], pid);
    }
  }

  // ---- the guard, on the upload ---------------------------------------------------------------

  // The sender's vec0, empty when the upload has no readable entry of the sender.
  function SentSlots(params: seq<Byte>, pid: Pid): seq<Word> {
    var found := SparkStats.SenderEntry(params, pid);
    if found.Some? then found.value.vec0 else []
  }

  // The handler gets as far as taking the id: there are parameters, and the rows of a non-empty vec0 can be
  // computed (a map slot that is not finite raises before that).
  predicate TakesId(params: seq<Byte>, pid: Pid) {
    params != [] && (SentSlots(params, pid) != [] ==>
      Career.ComputeRows(SentSlots(params, pid), SparkStats.SenderEntry(params, pid).value.vec1).Some?)
  }

  // It takes the id and then raises in its log line.
  predicate RaisesLate(params: seq<Byte>, pid: Pid) { TakesId(params, pid) && !Loggable(SentSlots(params, pid)) }

  // It takes the id and answers with it.
  predicate Answerable(params: seq<Byte>, pid: Pid) { TakesId(params, pid) && Loggable(SentSlots(params, pid)) }

  // The guard in words: the four slots the log line converts, of those the upload has, are finite or not.
  lemma RaisesLateIff(params: seq<Byte>, pid: Pid)
    ensures RaisesLate(params, pid)
       <==> TakesId(params, pid) && exists j :: j in [14, 58, 59, 84] && j < |SentSlots(params, pid)|
                                                && SentSlots(params, pid)[j] % 0x8000_0000 >= 0x7F80_0000
  {
    hide TakesId, SentSlots, Floats.Finite;
    var v := SentSlots(params, pid);
    forall j | j in [14, 58, 59, 84] && j < |v| ensures Floats.Finite(v[j]) <==> v[j] % 0x8000_0000 < 0x7F80_0000 {
      Floats.FiniteIff(v[j]);
    }
    assert forall j :: j in {14, 58, 59, 84} <==> j in [14, 58, 59, 84];
  }

  // And an id is taken unless there are no parameters, or the upload is an instant one with a map slot that is not
  // finite.
  lemma TakesIdIff(params: seq<Byte>, pid: Pid)
    ensures TakesId(params, pid)
       <==> params != []
            && (SentSlots(params, pid) != [] ==>
                  var v1 := SparkStats.SenderEntry(params, pid).value.vec1;
                  |v1| < 31 || forall k | k in [9, 13, 17, 21, 25, 29] :: v1[k] % 0x8000_0000 < 0x7F80_0000)
  {
    hide SparkStats.SenderEntry, Career.ComputeRows;
    if SentSlots(params, pid) != [] {
      Career.RowsIff(SentSlots(params, pid), SparkStats.SenderEntry(params, pid).value.vec1);
    }
  }

  lemma CountedNumbers(w: World, port: Port, sender: Pid, v0: seq<Word>, pid: Pid)
    ensures var log, id := Counted(w, port, sender, v0).log, TxnOf(w.txns, sender) + 1;
            && Burns(log, pid) == Burns(w.log, pid) + (if sender == pid && !Loggable(v0) then 1 else 0)
            && Replies(log, pid) == Replies(w.log, pid) + (if sender == pid && Loggable(v0) then [id] else [])
  {
    hide Attributed, Loggable, Replies, Burns;
    var id := TxnOf(w.txns, sender) + 1;
    var w1 := w.(txns := w.txns[sender := id]);
    if Loggable(v0) {
      var es := AttributedEvents(w1, port, sender);
      NumbersKept(w.log, es, pid);
      NumbersSnoc(w.log + es, Replied(sender, id), pid);
    } else {
      NumbersSnoc(w.log, Burned(sender, id), pid);
    }
  }

  lemma StoredNumbers(w: World, sender: Pid, v0: seq<Word>, v1: seq<Word>, writeOk: bool, pid: Pid)
    requires Stored(w, sender, v0, v1, writeOk).Some?
    ensures var w1 := Stored(w, sender, v0, v1, writeOk).value;
            Replies(w1.log, pid) == Replies(w.log, pid) && Burns(w1.log, pid) == Burns(w.log, pid) && w1.txns == w.txns
  {
    hide Career.ComputeRows, Career.Storable, Career.PersistMatch, Replies, Burns;
    NumbersSnoc(w.log, Saved(sender, v0), pid);
    assert Replies(w.log, pid) + [] == Replies(w.log, pid);
  }

  // One report: whether it burns the id or answers with it is decided by the upload alone.
  lemma ReportNumbers(w: World, port: Port, c: Conn, params: seq<Byte>, writeOk: bool, pid: Pid)
    ensures var log := ReportStats(w, port, c, params, writeOk).log; var id := TxnOf(w.txns, pid) + 1;
            && Burns(log, pid) == Burns(w.log, pid) + (if c.userPid == pid && RaisesLate(params, pid) then 1 else 0)
            && Replies(log, pid)
                == Replies(w.log, pid) + (if c.userPid == pid && Answerable(params, pid) then [id] else [])
  {
    hide Replies, Burns, Counted, Loggable, SparkStats.SenderEntry, Career.ComputeRows;
    assert Replies(w.log, pid) + [] == Replies(w.log, pid);
    if params != [] {
      var sender := c.userPid;
      var found := SparkStats.SenderEntry(params, sender);
      var v0 := if found.Some? then found.value.vec0 else [];
      var v1 := if found.Some? then found.value.vec1 else [];
      var stored := Stored(w, sender, v0, v1, writeOk);
      assert stored.Some? <==> TakesId(params, sender);
      if stored.Some? {
        StoredNumbers(w, sender, v0, v1, writeOk, pid);
        CountedNumbers(stored.value, port, sender, v0, pid);
      }
    }
  }

  // ---- step by step ----------------------------------------------------------------------------

  predicate RaisesAt(w: World, s: Step, pid: Pid) { ReportBy(w, s, pid) && RaisesLate(s.call.params, pid) }

  predicate AnsweredAt(w: World, s: Step, pid: Pid) { ReportBy(w, s, pid) && Answerable(s.call.params, pid) }

  lemma StepNumbers(w: World, s: Step, pid: Pid)
    ensures var log, id := Next(w, s).log, TxnOf(w.txns, pid) + 1;
            && Burns(log, pid) == Burns(w.log, pid) + (if RaisesAt(w, s, pid) then 1 else 0)
            && Replies(log, pid) == Replies(w.log, pid) + (if AnsweredAt(w, s, pid) then [id] else [])
  {
    hide Replies, Burns, RaisesLate, Answerable, ReapAll, OnTimeout, CloseRemote, DroppedBy, ReportStats;
    assert Replies(w.log, pid) + [] == Replies(w.log, pid);
    match s
    case Syn(_, _) =>
    case Connect(_, _, _, _) =>
    case Disconnect(port, remote) => NumbersKept(w.log, [Closed(remote, DroppedBy(w.reg, remote))], pid);
    case Reap(port, stale) => ReapNumbers(w, port, stale, pid);
    case Expire(t) => TimeoutNumbers(w, t, pid);
    case Request(port, remote, call) => RequestNumbers(w, port, remote, call, pid);
  }

  lemma RequestNumbers(w: World, port: Port, remote: Remote, call: Call, pid: Pid)
    ensures var s := Request(port, remote, call); var log, id := Next(w, s).log, TxnOf(w.txns, pid) + 1;
            && Burns(log, pid) == Burns(w.log, pid) + (if RaisesAt(w, s, pid) then 1 else 0)
            && Replies(log, pid) == Replies(w.log, pid) + (if AnsweredAt(w, s, pid) then [id] else [])
  {
    hide Replies, Burns, RaisesLate, Answerable, ReportStats, CreateGathering, JoinGathering, LeaveGathering,
         DestroyGathering, CloseParticipation, OpenParticipation, HandleEndGame;
    assert Replies(w.log, pid) + [] == Replies(w.log, pid);
    if Established(w, port, remote).Some? {
      var id := Established(w, port, remote).value;
      if call.Report? {
        ReportNumbers(w, port, w.conns[id], call.params, call.writeOk, pid);
      } else {
        var es := HandleUnsaved(w, port, id, call);
        NumbersKept(w.log, es, pid);
      }
    }
  }

  lemma {:induction false} ReapNumbers(w: World, port: Port, stale: seq<Remote>, pid: Pid)
    ensures Replies(ReapAll(w, port, stale).log, pid) == Replies(w.log, pid)
    ensures Burns(ReapAll(w, port, stale).log, pid) == Burns(w.log, pid)
    decreases stale
  {
    hide Replies, Burns, CloseRemote, DroppedBy;
    if stale != [] {
      NumbersKept(w.log, [Closed(stale[0], DroppedBy(w.reg, stale[0]))], pid);
      ReapNumbers(HandleDisconnect(w, port, stale[0]), port, stale[1..], pid);
    }
  }

  lemma TimeoutNumbers(w: World, t: TimerId, pid: Pid)
    ensures Replies(OnTimeout(w, t).log, pid) == Replies(w.log, pid)
        && Burns(OnTimeout(w, t).log, pid) == Burns(w.log, pid)
  {
    hide Replies, Burns, Fire;
    if t in w.timers && w.timers[t].gid in w.reg.byId {
      var es := FireEvents(w.(timers := w.timers - {t}), w.timers[t].port, w.timers[t].gid, TimedOut);
      NumbersKept(w.log, es, pid);
    }
  }

  // ---- whole runs --------------------------------------------------------------------------------

  // Some upload of the player raises late and a later one is answered.
  ghost predicate LateThenAnswered(steps: seq<Step>, pid: Pid) {
    exists i, j :: 0 <= i < j < |steps| && RaisesAt(Run(START, steps[..i]), steps[i], pid)
                   && AnsweredAt(Run(START, steps[..j]), steps[j], pid)
  }

  ghost predicate SomeRaised(steps: seq<Step>, pid: Pid) {
    exists i :: 0 <= i < |steps| && RaisesAt(Run(START, steps[..i]), steps[i], pid)
  }

  lemma {:induction false} BurnedIfRaised(steps: seq<Step>, pid: Pid)
    ensures Burns(Run(START, steps).log, pid) > 0 <==> SomeRaised(steps, pid)
    decreases |steps|
  {
    hide Run, Next, Burns, RaisesAt;
    if steps == [] {
      NothingYet(pid);
    } else {
      var n := |steps| - 1;
      var init, s := steps[..n], steps[n];
      assert steps == init + [s] && forall i | 0 <= i <= n :: steps[..i] == init[..i];
      RunSnoc(START, init, s);
      BurnedIfRaised(init, pid);
      StepNumbers(Run(START, init), s, pid);
      if SomeRaised(steps, pid) {
        var i :| 0 <= i < |steps| && RaisesAt(Run(START, steps[..i]), steps[i], pid);
        assert i < n ==> init[i] == steps[i];
      }
      if SomeRaised(init, pid) {
        var i :| 0 <= i < |init| && RaisesAt(Run(START, init[..i]), init[i], pid);
        assert RaisesAt(Run(START, steps[..i]), steps[i], pid);
      }
      if RaisesAt(Run(START, init), s, pid) { assert RaisesAt(Run(START, steps[..n]), steps[n], pid); }
    }
  }

  lemma NothingYet(pid: Pid)
    ensures Burns(Run(START, []).log, pid) == 0 && Replies(Run(START, []).log, pid) == []
  {
  }

  lemma LateThenAnsweredSnoc(init: seq<Step>, s: Step, pid: Pid)
    ensures LateThenAnswered(init + [s], pid)
       <==> LateThenAnswered(init, pid) || (AnsweredAt(Run(START, init), s, pid) && SomeRaised(init, pid))
  {
    hide Run, RaisesAt, AnsweredAt;
    var steps, n := init + [s], |init|;
    assert forall i | 0 <= i <= n :: steps[..i] == init[..i];
    assert init[..n] == init && forall i | 0 <= i < n :: steps[i] == init[i];
    if LateThenAnswered(init, pid) {
      var i, j :| 0 <= i < j < |init| && RaisesAt(Run(START, init[..i]), init[i], pid)
                  && AnsweredAt(Run(START, init[..j]), init[j], pid);
      assert RaisesAt(Run(START, steps[..i]), steps[i], pid) && AnsweredAt(Run(START, steps[..j]), steps[j], pid);
    }
    if AnsweredAt(Run(START, init), s, pid) && SomeRaised(init, pid) {
      var i :| 0 <= i < |init| && RaisesAt(Run(START, init[..i]), init[i], pid);
      assert RaisesAt(Run(START, steps[..i]), steps[i], pid) && AnsweredAt(Run(START, steps[..n]), steps[n], pid);
    }
    if LateThenAnswered(steps, pid) {
      var i, j :| 0 <= i < j < |steps| && RaisesAt(Run(START, steps[..i]), steps[i], pid)
                  && AnsweredAt(Run(START, steps[..j]), steps[j], pid);
      assert RaisesAt(Run(START, init[..i]), init[i], pid);
      if j < n { assert AnsweredAt(Run(START, init[..j]), init[j], pid); }
    }
  }

  lemma UpToSnoc(ids: seq<nat>, id: nat)
    ensures ids + [id] == UpTo(|ids| + 1) <==> ids == UpTo(|ids|) && id == |ids| + 1
  {
    assert UpTo(|ids| + 1) == UpTo(|ids|) + [|ids| + 1];
    if ids + [id] == UpTo(|ids| + 1) {
      assert ids == (ids + [id])[..|ids|] == UpTo(|ids| + 1)[..|ids|] == UpTo(|ids|);
      assert id == (ids + [id])[|ids|];
    }
  }

  // In every run a player's replies carry 1, 2, 3, ... without a gap if and only if no upload of the player that
  // raises late comes before one that is answered. Both are read off the uploaded bytes.
  lemma {:induction false} RepliesWithoutGaps(steps: seq<Step>, pid: Pid)
    ensures var ids := Replies(Run(START, steps).log, pid);
            ids == UpTo(|ids|) <==> !LateThenAnswered(steps, pid)
    decreases |steps|
  {
    hide Run, Next, Replies, Burns, RaisesAt, AnsweredAt, LateThenAnswered, SomeRaised, IdsOf;
    if steps == [] {
      NothingYet(pid);
      NobodyYet(pid);
    } else {
      var n := |steps| - 1;
      var init, s := steps[..n], steps[n];
      var w := Run(START, init);
      var ids := Replies(w.log, pid);
      assert steps == init + [s] && ids + [] == ids;
      RunSnoc(START, init, s);
      RepliesWithoutGaps(init, pid);
      LateThenAnsweredSnoc(init, s, pid);
      BurnedIfRaised(init, pid);
      StepNumbers(w, s, pid);
      NextId(init, pid);
      UpToSnoc(ids, TxnOf(w.txns, pid) + 1);
    }
  }

  lemma NobodyYet(pid: Pid)
    ensures !LateThenAnswered([], pid)
  {
  }

  // The next id is one more than all ids answered or burned.
  lemma NextId(steps: seq<Step>, pid: Pid)
    ensures var w := Run(START, steps); TxnOf(w.txns, pid) == |Replies(w.log, pid)| + Burns(w.log, pid)
  {
    hide Run, IdsOf;
    StartIds();
    IdsOkRun(START, steps);
    var w := Run(START, steps);
    ConsumedIsRepliesAndBurns(w.log, pid);
    assert Txns.Matches(IdsOf(w.log, 0, pid), pid, TxnOf(w.txns, pid), None);
  }

  // A player's first connection, such an upload, and a second report without readable stats.
  function GapRun(at: Remote, pid: Pid, upload: seq<Byte>): seq<Step> {
    [Syn(Secure, at)] + ([Connect(Secure, at, true, Some(pid))]
    + ([Request(Secure, at, Report(upload, true))] + ([Request(Secure, at, Report([0], true))] + [])))
  }

  // The only reply that player is ever sent carries id 2.
  lemma LateRaiseLeavesGap(at: Remote, pid: Pid, upload: seq<Byte>)
    requires RaisesLate(upload, pid)
    ensures Replies(Run(START, GapRun(at, pid, upload)).log, pid) == [2]
  {
    hide Run, Next, Replies, Burns, ReportBy, TakesId, Loggable, SentSlots;
    var s1, s2 := Syn(Secure, at), Connect(Secure, at, true, Some(pid));
    var s3, s4 := Request(Secure, at, Report(upload, true)), Request(Secure, at, Report([0], true));
    var w1 := Next(START, s1);
    var w2 := Next(w1, s2);
    var w3 := Next(w2, s3);
    RunFirst(START, s1, [s2] + ([s3] + ([s4] + [])));
    RunFirst(w1, s2, [s3] + ([s4] + []));
    RunFirst(w2, s3, [s4] + []);
    RunFirst(w3, s4, []);
    RunNone(Next(w3, s4));
    GapStart(at, pid, w1, w2, w3, upload);
    StepNumbers(START, s1, pid);
    StepNumbers(w1, s2, pid);
    StepNumbers(w2, s3, pid);
    StepNumbers(w3, s4, pid);
    NothingYet(pid);
    RunNone(START);
    RunThree(s1, s2, s3);
    NextId([s1, s2, s3], pid);
    EmptyIsAnswerable(pid);
    assert Replies(w3.log, pid) == [] && Burns(w3.log, pid) == 1;
  }

  lemma RunThree(s1: Step, s2: Step, s3: Step)
    ensures Run(START, [s1, s2, s3]) == Next(Next(Next(START, s1), s2), s3)
  {
    hide Run, Next;
    assert [s1, s2, s3] == [s1] + ([s2] + ([s3] + []));
    RunFirst(START, s1, [s2] + ([s3] + []));
    RunFirst(Next(START, s1), s2, [s3] + []);
    RunFirst(Next(Next(START, s1), s2), s3, []);
    RunNone(Next(Next(Next(START, s1), s2), s3));
  }

  // The two reports come from the player's established connection.
  lemma GapStart(at: Remote, pid: Pid, w1: World, w2: World, w3: World, upload: seq<Byte>)
    requires w1 == Next(START, Syn(Secure, at)) && w2 == Next(w1, Connect(Secure, at, true, Some(pid)))
    requires w3 == Next(w2, Request(Secure, at, Report(upload, true)))
    ensures ReportBy(w2, Request(Secure, at, Report(upload, true)), pid)
    ensures ReportBy(w3, Request(Secure, at, Report([0], true)), pid)
    ensures !ReportBy(START, Syn(Secure, at), pid) && !ReportBy(w1, Connect(Secure, at, true, Some(pid)), pid)
  {
    hide ReportStats;
    var c := Conn(Secure, at, true, pid, []);
    assert Established(w2, Secure, at) == Some(0) && w2.conns[0] == c;
    ReportKeepsConns(w2, Secure, c, upload, true);
  }

  lemma ReportKeepsConns(w: World, port: Port, c: Conn, params: seq<Byte>, writeOk: bool)
    ensures ReportStats(w, port, c, params, writeOk).conns == w.conns
        && ReportStats(w, port, c, params, writeOk).table == w.table
  {
    hide Attributed;
    var counted, w1, es, v0 := ReportParts(w, port, c, params, writeOk);
    if counted {
      var w2 := w1.(txns := w1.txns[c.userPid := TxnOf(w1.txns, c.userPid) + 1]);
      AttributedKeepsConns(w2, port, c.userPid);
    }
  }

  lemma AttributedKeepsConns(w: World, port: Port, pid: Pid)
    ensures Attributed(w, port, pid).conns == w.conns && Attributed(w, port, pid).table == w.table
  {
    var home := FirstWith(w.reg, w.reg.order, pid);
    if home.Some? { AttributeOnlyBatch(w, port, home.value, pid); }
  }

  lemma EmptyIsAnswerable(pid: Pid)
    ensures Answerable([0], pid)
  {
    assert Loggable([]);
  }

  // Such uploads exist: a NaN in slot 14 is enough.
  lemma NanRaisesLate(pid: Pid, slots: seq<Word>)
    requires 14 < |slots| < 0x1_0000_0000 && slots[14] == 0x7FC0_0000
    ensures RaisesLate(SparkStats.UploadBytes(0, 0, [SparkStats.Entry(pid, [], 0, slots, [], [])]), pid)
  {
    hide SparkStats.EntriesBytes, SparkStats.FindEntry, Floats.Finite;
    var es := [SparkStats.Entry(pid, [], 0, slots, [], [])];
    SparkStats.UploadRoundTrip(0, 0, es, [], pid);
    assert SparkStats.UploadBytes(0, 0, es) + [] == SparkStats.UploadBytes(0, 0, es);
    NanIsNotFinite();
  }

  lemma NanIsNotFinite()
    ensures !Floats.Finite(0x7FC0_0000)
  {
  }
}
