/**
  The answer to a match report (the m=12 branch of `lifecycle_stub`): one
  statistics entry from which the wrap-up screen counts the player's cash up,
  from what the server had to what the player uploaded.
*/
module MatchReply {
  import opened Options
  import opened Bytes
  import opened RmcTypes
  import opened Lobbies
  import opened Machine
  import opened Replies
  import opened Saves
  import SparkStats
  import Career

  const CASH_SLOT: nat := 5
  const TOTAL_SLOT: nat := 10

  function ReplyEntry(pid: Pid, baseline: Word, total: Word, txn: nat): SparkStats.Entry {
    SparkStats.Entry(pid, SparkStats.EntryName(pid, None), txn % 0x1_0000_0000,
                     SparkStats.Dense(map[CASH_SLOT := baseline], SparkStats.VEC0_LEN),
                     SparkStats.Dense(map[TOTAL_SLOT := total], SparkStats.VEC1_LEN), [])
  }

  function ReplyBody(pid: Pid, baseline: Word, total: Word, txn: nat): seq<Byte> {
    Le32(1) + SparkStats.EntryBytes(ReplyEntry(pid, baseline, total, txn))
  }

  // `_build_sparkstats_reply`
  method WriteReply(pid: Pid, baseline: Word, total: Word, txn: nat) returns (body: seq<Byte>)
    ensures body == ReplyBody(pid, baseline, total, txn)
  {
    hide SparkStats.EntryBytes;
    var out := new ByteBuffer();
    out.WU32(1);
    SparkStats.WriteEntry(out, pid, map[CASH_SLOT := baseline], map[TOTAL_SLOT := total], map[], txn, 0, None);
    assert SparkStats.Dense(map[], 0) == [];
    body := out.data;
  }

  // What is left to answer once the upload is read.
  function Answer(w: World, pid: Pid, v0: seq<Word>, v1: seq<Word>): Option<seq<Byte>> {
    if (v0 != [] && Career.ComputeRows(v0, v1).None?) || !Loggable(v0) then None
    else
      var baseline := Career.CareerCash(w.db, pid);
      Some(ReplyBody(pid, baseline, if |v0| > CASH_SLOT then v0[CASH_SLOT] else baseline, TxnOf(w.txns, pid) + 1))
  }

  // The body a report is answered with; None where the handler raises.
  function ReportReply(w: World, c: Conn, params: seq<Byte>): Option<seq<Byte>> {
    if params == [] then Some([])
    else
      var found := SparkStats.SenderEntry(params, c.userPid);
      Answer(w, c.userPid, SentSlots(params, c.userPid), if found.Some? then found.value.vec1 else [])
  }

  // What the server had: the cash slot of the player's last saved upload, 0 before the first.
  function SavedCash(log: seq<Event>, pid: Pid): Word {
    match LastSaved(log, pid)
    case None => 0
    case Some(v) => Career.Padded(v)[CASH_SLOT]
  }

  lemma CashIsSaved(w: World, pid: Pid)
    requires Faithful(w)
    ensures Career.CareerCash(w.db, pid) == SavedCash(w.log, pid)
  {
    match LastSaved(w.log, pid)
    case None =>
    case Some(v) => Career.UnpackPack(v);
  }

  lemma ReplyWritable(pid: Pid, baseline: Word, total: Word, txn: nat)
    ensures SparkStats.Writable(ReplyEntry(pid, baseline, total, txn))
  {
    assert Career.Pow10(5) == 100000;
    assert Career.Pow10(10) == 10000000000;
    Career.DecimalShort(pid, 10);
  }

  lemma BodyReadsBack(pid: Pid, baseline: Word, total: Word, txn: nat)
    ensures var found := SparkStats.FindEntry(ReplyBody(pid, baseline, total, txn), 4, 1, pid);
            && found.Some? && |found.value.vec0| > CASH_SLOT && |found.value.vec1| > TOTAL_SLOT
            && found.value.vec0[CASH_SLOT] == baseline && found.value.vec1[TOTAL_SLOT] == total
            && found.value.pid == pid && found.value.txn == txn % 0x1_0000_0000
  {
    hide SparkStats.FindEntry, SparkStats.EntryBytes, SparkStats.Writable, SparkStats.EntryName;
    var e := ReplyEntry(pid, baseline, total, txn);
    var body, bytes := ReplyBody(pid, baseline, total, txn), SparkStats.EntryBytes(e);
    ReplyWritable(pid, baseline, total, txn);
    assert SparkStats.EntriesBytes([e]) == bytes by { assert bytes + [] == bytes; }
    HasMiddle(Le32(1), bytes, []);
    assert Le32(1) + bytes + [] == body;
    SparkStats.FindEntryRoundTrip(body, 4, [e], pid);
    assert SparkStats.FirstWithPid([e], pid) == Some(e);
  }

  // In every run, a report with parameters is answered exactly if it gets past its log line, and the client
  // that looks its pid up in the answer finds there the id the report was given, the cash of its last saved upload and
  // the cash of this one
  // (the same, if this one has no such slot).
  lemma ReplyShowsMatch(steps: seq<Step>, c: Conn, params: seq<Byte>)
    requires params != []
    ensures var w := Run(START, steps); var pid := c.userPid; var v0 := SentSlots(params, pid);
            match ReportReply(w, c, params)
            case None => !Answerable(params, pid)
            case Some(body) =>
              Answerable(params, pid)
              && var found := SparkStats.FindEntry(body, 4, 1, pid);
                 found.Some? && |found.value.vec0| > 5 && |found.value.vec1| > 10
                 && found.value.txn == ((if pid in w.txns then w.txns[pid] else 0) + 1) % 0x1_0000_0000
                 && found.value.vec0[5] == SavedCash(w.log, pid)
                 && found.value.vec1[10] == (if |v0| > 5 then v0[5] else SavedCash(w.log, pid))
  {
    hide Run, Career.ComputeRows, Loggable, SavedCash, Career.CareerCash, SparkStats.FindEntry, ReplyBody;
    var w, pid, v0 := Run(START, steps), c.userPid, SentSlots(params, c.userPid);
    FaithfulRun(START, steps);
    CashIsSaved(w, pid);
    var baseline := Career.CareerCash(w.db, pid);
    BodyReadsBack(pid, baseline, if |v0| > CASH_SLOT then v0[CASH_SLOT] else baseline, TxnOf(w.txns, pid) + 1);
  }
}
