/**
  Career and leaderboard persistence (db/career.py and the stat half of
  protocols/game.py). The tables are maps; a stat slot is the 32-bit word of its
  float. Any statement of a transaction may fail.
*/
module Career {
  import opened Options
  import opened Bytes
  import opened Floats
  import opened Numbers
  import opened RmcTypes
  import opened SparkStats

  // Two REAL columns and an INTEGER one.
  datatype Row = Row(cash: Word, modeStat: Word, mapId: int)

  // One leaderboard row of a match: category and values.
  datatype BoardRow = BoardRow(category: nat, row: Row)

  datatype Store = Store(career: map<Word, seq<Byte>>, boards: map<(Word, nat), Row>)

  // 1002.0f, the stats_version served to a player who has never uploaded.
  const STATS_VERSION: Word := 0x447A_8000

  // ---- pack / unpack ------------------------------------------------------------

  function Zeros(n: nat): seq<Word> { seq(n, i => 0) }

  // Cut or zero-padded to the stored length.
  function Padded(v: seq<Word>): (r: seq<Word>)
    ensures |r| == VEC0_LEN
    ensures forall i | 0 <= i < VEC0_LEN :: r[i] == (if i < |v| then v[i] else 0)
  {
    if |v| >= VEC0_LEN then v[..VEC0_LEN] else v + Zeros(VEC0_LEN - |v|)
  }

  function PackVec0(v: seq<Word>): seq<Byte> { WordBytes(Padded(v)) }

  function UnpackVec0(blob: seq<Byte>): seq<Word> { Words(blob, 0, |blob| / 4) }

  // What is read back is the upload at its stored length.
  lemma UnpackPack(v: seq<Word>)
    ensures UnpackVec0(PackVec0(v)) == Padded(v)
  {
    assert PackVec0(v) == [] + PackVec0(v) + [];
    HasMiddle([], PackVec0(v), []);
    HasWords(PackVec0(v), 0, Padded(v));
  }

  // ---- reads -----------------------------------------------------------------------

  function DefaultCareer(): seq<Word> { [STATS_VERSION] + Zeros(VEC0_LEN - 1) }

  function CareerOf(db: Store, pid: Word): seq<Word> {
    if pid in db.career then UnpackVec0(db.career[pid]) else DefaultCareer()
  }

  // `career_cash`: slot 5 of the stored career, 0 without one.
  function CareerCash(db: Store, pid: Word): Word {
    if pid in db.career && |UnpackVec0(db.career[pid])| > 5 then UnpackVec0(db.career[pid])[5] else 0
  }

  function BoardOf(db: Store, pid: Word, cat: nat): Row {
    if (pid, cat) in db.boards then db.boards[(pid, cat)] else Row(0, 0, 0)
  }

  // ---- writes ------------------------------------------------------------------------

  function UpsertCareer(db: Store, pid: Word, v0: seq<Word>): Store {
    db.(career := db.career[pid := PackVec0(v0)])
  }

  function UpsertBoards(db: Store, pid: Word, rows: seq<BoardRow>): Store {
    if rows == [] then db
    else
      var n := |rows| - 1;
      var before := UpsertBoards(db, pid, rows[..n]);
      before.(boards := before.boards[(pid, rows[n].category) := rows[n].row])
  }

  // The integers the database takes: 64 bits with a sign.
  predicate Bindable(n: int) { -0x8000_0000_0000_0000 <= n < 0x8000_0000_0000_0000 }

  // NaN is stored as NULL, which the NOT NULL columns refuse, and a wider integer is not taken at all.
  predicate StorableRow(row: Row) { !IsNaN(row.cash) && !IsNaN(row.modeStat) && Bindable(row.mapId) }

  predicate Storable(rows: seq<BoardRow>) { forall i | 0 <= i < |rows| :: StorableRow(rows[i].row) }

  // The instant mode-blocks in job order and the board each one feeds.
  const INSTANT_BOARDS: seq<nat> := [303, 302, 304, 307, 305, 306]

  function InstantRow(v1: seq<Word>, block: nat): BoardRow
    requires block < 6 && |v1| >= 31
  {
    var base := 7 + 4 * block;
    BoardRow(INSTANT_BOARDS[block], Row(v1[base], v1[base + 1], Truncated(v1[base + 2])))
  }

  // `_compute_leaderboard_rows`: None where `int(...)` of a map slot raises.
  function ComputeRows(v0: seq<Word>, v1: seq<Word>): Option<seq<BoardRow>> {
    if |v1| >= 31 then
      if forall b | 0 <= b < 6 :: Finite(v1[9 + 4 * b])
      then Some([InstantRow(v1, 0), InstantRow(v1, 1), InstantRow(v1, 2), InstantRow(v1, 3), InstantRow(v1, 4),
                 InstantRow(v1, 5), BoardRow(301, Row(if |v0| > 5 then v0[5] else 0, 0, 0))])
      else None
    else if |v1| >= 15 then Some([BoardRow(201, Row(v1[5], 0, 0))])
    else Some([])
  }

  function PersistMatch(db: Store, pid: Word, v0: seq<Word>, rows: seq<BoardRow>, ok: bool): Store {
    if ok && Storable(rows) then UpsertBoards(UpsertCareer(db, pid, v0), pid, rows) else db
  }

  lemma {:induction false} BoardsLeaveCareer(db: Store, pid: Word, rows: seq<BoardRow>)
    ensures UpsertBoards(db, pid, rows).career == db.career
    ensures forall p, c | p != pid :: (p, c) in UpsertBoards(db, pid, rows).boards <==> (p, c) in db.boards
    ensures forall p, c | p != pid && (p, c) in db.boards ::
              UpsertBoards(db, pid, rows).boards[(p, c)] == db.boards[(p, c)]
  {
    if rows != [] {
      BoardsLeaveCareer(db, pid, rows[..|rows| - 1]);
    }
  }

  /** The shared database connection: one career table, one leaderboard table, explicit transactions. */
  class Database {
    var career: map<Word, seq<Byte>>
    var boards: map<(Word, nat), Row>

    ghost function View(): Store
      reads this
    {
      Store(career, boards)
    }

    constructor ()
      ensures View() == Store(map[], map[])
    {
      career, boards := map[], map[];
    }

    // `_persist_match`. `failing` numbers the statement that raises, if any: 0 is BEGIN, 1 the career
    // upsert, then one per row, then COMMIT. Either everything is written or nothing is.
    method Persist(pid: Word, v0: seq<Word>, rows: seq<BoardRow>, failing: Option<nat>) returns (saved: bool)
      modifies this
      ensures saved <==> Storable(rows) && (failing.Some? ==> failing.value > |rows| + 2)
      ensures View() == PersistMatch(old(View()), pid, v0, rows, saved)
    {
      if failing == Some(0) { return false; }
      var careerBefore, boardsBefore := career, boards;
      ghost var before := View();
      if failing == Some(1) { return false; }
      career := career[pid := PackVec0(v0)];
      for i := 0 to |rows|
        invariant View() == UpsertBoards(UpsertCareer(before, pid, v0), pid, rows[..i])
        invariant Storable(rows[..i]) && (failing.Some? ==> failing.value > i + 1)
      {
        if failing == Some(i + 2) || !StorableRow(rows[i].row) {
          career, boards := careerBefore, boardsBefore;
          return false;
        }
        boards := boards[(pid, rows[i].category) := rows[i].row];
        assert rows[..i + 1][..i] == rows[..i];
      }
      assert rows[..|rows|] == rows;
      if failing == Some(|rows| + 2) {
        career, boards := careerBefore, boardsBefore;
        return false;
      }
      return true;
    }
  }

  // ---- serving: the m=9 reply ---------------------------------------------------------

  // Slot j of a frame that shows slot j+shift of `v`; 0 past the end of `v`.
  function Shifted(v: seq<Word>, j: nat, shift: int): Word {
    if 0 <= j + shift < |v| then v[j + shift] else 0
  }

  // `_career_v1`: slot i at vec1 slot i+5.
  function CareerSlots101(v0: seq<Word>): map<nat, Word> {
    map j: nat | 5 <= j < |v0| + 5 :: Shifted(v0, j, -5)
  }

  predicate Cat102Slot(j: nat) { 5 <= j <= 24 || j == 28 }

  // `_career_v1_cat102`: the documented slots at i-56.
  function CareerSlots102(v0: seq<Word>): map<nat, Word> {
    map j: nat | j < 29 && Cat102Slot(j) :: Shifted(v0, j, 56)
  }

  function BoardSlots(row: Row): map<nat, Word> { map[5 := row.cash, 6 := row.modeStat, 7 := FloatOf(row.mapId)] }

  function ServedSlots(db: Store, cat: nat, pid: Word): map<nat, Word> {
    if cat == 101 then CareerSlots101(CareerOf(db, pid))
    else if cat == 102 then CareerSlots102(CareerOf(db, pid))
    else if cat >= 201 then BoardSlots(BoardOf(db, pid, cat))
    else map[]
  }

  function ServedEntry(db: Store, cat: nat, pid: Word): Entry {
    Entry(pid, EntryName(pid, None), 0, Dense(map[], VEC0_LEN), Dense(ServedSlots(db, cat, pid), VEC1_LEN), [])
  }

  function ServedEntries(db: Store, cat: nat, pids: seq<Word>): seq<Entry> {
    seq(|pids|, i requires 0 <= i < |pids| => ServedEntry(db, cat, pids[i]))
  }

  lemma {:induction false} EntriesBytesSnoc(es: seq<Entry>, e: Entry)
    ensures EntriesBytes(es + [e]) == EntriesBytes(es) + EntryBytes(e)
  {
    hide EntryBytes;
    if es == [] {
      assert EntriesBytes([e]) == EntryBytes(e) + [];
    } else {
      EntriesBytesSnoc(es[1..], e);
      var first, rest, last := EntryBytes(es[0]), EntriesBytes(es[1..]), EntryBytes(e);
      assert (es + [e])[1..] == es[1..] + [e];
      assert first + (rest + last) == first + rest + last;
    }
  }

  // One served entry, appended in place.
  method WriteServed(out: ByteBuffer, database: Database, cat: nat, pid: Word)
    modifies out
    ensures out.data == old(out.data) + EntryBytes(ServedEntry(database.View(), cat, pid))
  {
    var slots := ServedSlots(Store(database.career, database.boards), cat, pid);
    WriteEntry(out, pid, map[], slots, map[], 0, 0, None);
    assert ServedEntry(database.View(), cat, pid)
        == Entry(pid % 0x1_0000_0000, EntryName(pid, None), 0 % 0x1_0000_0000,
                 Dense(map[], VEC0_LEN), Dense(slots, VEC1_LEN), Dense(map[], 0)) by {
      assert Dense(map[], 0) == [];
    }
  }

  function UserStatsReply(db: Store, cat: nat, pids: seq<Word>): seq<Byte>
    requires |pids| < 0x1_0000_0000
  {
    Le32(|pids|) + EntriesBytes(ServedEntries(db, cat, pids))
  }

  // Serving one more pid adds its entry at the end.
  lemma ServedSnoc(db: Store, cat: nat, pids: seq<Word>, pid: Word)
    ensures EntriesBytes(ServedEntries(db, cat, pids + [pid]))
         == EntriesBytes(ServedEntries(db, cat, pids)) + EntryBytes(ServedEntry(db, cat, pid))
  {
    EntriesBytesSnoc(ServedEntries(db, cat, pids), ServedEntry(db, cat, pid));
    assert ServedEntries(db, cat, pids + [pid]) == ServedEntries(db, cat, pids) + [ServedEntry(db, cat, pid)];
  }

  // `user_stats`: the m=9 reply body, one entry per requested pid.
  method UserStats(database: Database, cat: nat, pids: seq<Word>) returns (reply: seq<Byte>)
    requires |pids| < 0x1_0000_0000
    ensures reply == UserStatsReply(database.View(), cat, pids)
  {
    hide EntryBytes, ServedEntry;
    var out := new ByteBuffer();
    out.WU32(|pids|);
    ghost var db := database.View();
    assert EntriesBytes(ServedEntries(db, cat, pids[..0])) == [] by {
      assert ServedEntries(db, cat, pids[..0]) == [];
    }
    for i := 0 to |pids|
      invariant out.data == Le32(|pids|) + EntriesBytes(ServedEntries(db, cat, pids[..i]))
    {
      ghost var head, body := Le32(|pids|), EntriesBytes(ServedEntries(db, cat, pids[..i]));
      ghost var entry := EntryBytes(ServedEntry(db, cat, pids[i]));
      WriteServed(out, database, cat, pids[i]);
      assert head + body + entry == head + (body + entry);
      assert pids[..i + 1] == pids[..i] + [pids[i]];
      ServedSnoc(db, cat, pids[..i], pids[i]);
    }
    assert pids[..|pids|] == pids;
    reply := out.data;
  }

  // ---- the m=9 request ------------------------------------------------------------------

  function WordAt(p: seq<Byte>, off: nat): Word { if |p| >= off + 4 then U32(p, off) else 0 }

  function NonZeros(ws: seq<Word>): seq<Word> {
    if ws == [] then [] else NonZeros(ws[..|ws| - 1]) + (if ws[|ws| - 1] != 0 then [ws[|ws| - 1]] else [])
  }

  lemma {:induction false} NoZeros(ws: seq<Word>)
    requires 0 !in ws
    ensures NonZeros(ws) == ws
  {
    if ws != [] {
      NoZeros(ws[..|ws| - 1]);
    }
  }

  // `r` holds the nonzero words, in order: those at the places `at`.
  predicate Keeps(r: seq<Word>, ws: seq<Word>, at: seq<nat>) {
    && Rising(at) && |r| == |at|
    && (forall k | 0 <= k < |at| :: at[k] < |ws| && r[k] == ws[at[k]])
    && (forall i | 0 <= i < |ws| :: i in at <==> ws[i] != 0)
  }

  lemma KeepsSnoc(r: seq<Word>, ws: seq<Word>, w: Word, at: seq<nat>)
    requires Keeps(r, ws, at)
    ensures if w != 0 then Keeps(r + [w], ws + [w], at + [|ws|]) else Keeps(r, ws + [w], at)
  {
    hide Rising;
    var all := ws + [w];
    if w != 0 {
      RisingSnoc(at, |ws|);
      forall i | 0 <= i < |all| ensures i in at + [|ws|] <==> all[i] != 0 {
        InSnoc(at, |ws|, i);
      }
    }
  }

  lemma {:induction false} NonZerosAre(ws: seq<Word>) returns (at: seq<nat>)
    ensures Keeps(NonZeros(ws), ws, at)
  {
    at := [];
    if ws != [] {
      hide Keeps;
      var n := |ws| - 1;
      at := NonZerosAre(ws[..n]);
      assert ws == ws[..n] + [ws[n]] && NonZeros(ws[..n]) + [] == NonZeros(ws[..n]);
      KeepsSnoc(NonZeros(ws[..n]), ws[..n], ws[n], at);
      if ws[n] != 0 {
        at := at + [n];
      }
    }
  }

  // A request as a client spells it: category, count, pids, and two words the server does not read.
  function Request(cat: Word, pids: seq<Word>, rest: seq<Byte>): seq<Byte>
    requires |pids| < 0x1_0000_0000
  {
    Le32(cat) + Le32(|pids|) + WordBytes(pids) + rest
  }

  // As many words as are counted and there.
  function Asked(params: seq<Byte>): seq<Word> {
    if |params| < 8 then []
    else
      var there := (|params| - 8) / 4;
      Words(params, 8, if U32(params, 4) < there then U32(params, 4) else there)
  }

  // Whatever follows the pids, a request is for them.
  lemma RequestAsks(cat: Word, pids: seq<Word>, rest: seq<Byte>)
    requires |pids| < 0x1_0000_0000
    ensures WordAt(Request(cat, pids, rest), 0) == cat && Asked(Request(cat, pids, rest)) == pids
  {
    var params := Request(cat, pids, rest);
    U32OfLe32([], cat, Le32(|pids|) + WordBytes(pids) + rest);
    assert params == [] + Le32(cat) + (Le32(|pids|) + WordBytes(pids) + rest);
    U32OfLe32(Le32(cat), |pids|, WordBytes(pids) + rest);
    assert params == Le32(cat) + Le32(|pids|) + (WordBytes(pids) + rest);
    HasMiddle(Le32(cat) + Le32(|pids|), WordBytes(pids), rest);
    HasWords(params, 8, pids);
  }

  // `_parse_m9_pids`: in the order of the request, without the zeros.
  method ParseRequestedPids(params: seq<Byte>) returns (pids: seq<Word>)
    ensures pids == NonZeros(Asked(params)) && |pids| < 0x1_0000_0000
    ensures forall cat, asked, rest | |asked| < 0x1_0000_0000 && params == Request(cat, asked, rest) ::
              pids == NonZeros(asked)
  {
    forall cat, asked, rest | |asked| < 0x1_0000_0000 && params == Request(cat, asked, rest)
      ensures Asked(params) == asked
    {
      RequestAsks(cat, asked, rest);
    }
    if |params| < 8 { return []; }
    var count := U32(params, 4);
    var off, words := 8, [];
    for i := 0 to count
      invariant |words| == i && off == 8 + 4 * i <= |params|
      invariant words == Words(params, 8, i)
    {
      if off + 4 > |params| { break; }
      words := words + [U32(params, off)];
      off := off + 4;
    }
    assert words == Asked(params);
    pids := [];
    for i := 0 to |words|
      invariant pids == NonZeros(words[..i]) && |pids| <= i
    {
      assert words[..i + 1][..i] == words[..i];
      if words[i] != 0 {
        pids := pids + [words[i]];
      }
    }
    assert words[..|words|] == words;
  }

  // The whole m=9 handler.
  method AnswerUserStats(database: Database, params: seq<Byte>) returns (reply: seq<Byte>)
    ensures |NonZeros(Asked(params))| < 0x1_0000_0000
    ensures reply == UserStatsReply(database.View(), WordAt(params, 0), NonZeros(Asked(params)))
  {
    var pids := ParseRequestedPids(params);
    reply := UserStats(database, WordAt(params, 0), pids);
  }

  // ---- reading the reply back -------------------------------------------------------------

  function Pow10(k: nat): nat { if k == 0 then 1 else 10 * Pow10(k - 1) }

  lemma {:induction false} DecimalShort(n: nat, k: nat)
    requires k > 0 && n < Pow10(k)
    ensures |Decimal(n)| <= k
    decreases k
  {
    if n >= 10 {
      DecimalShort(n / 10, k - 1);
    }
  }

  lemma ServedWritable(db: Store, cat: nat, pid: Word)
    ensures Writable(ServedEntry(db, cat, pid))
  {
    hide ServedSlots;
    assert Pow10(5) == 100000;
    assert Pow10(8) == 100000000;
    assert Pow10(10) == 10000000000;
    DecimalShort(pid, 10);
  }

  // All entries of a reply with one pid are the same entry.
  lemma {:induction false} FirstServed(db: Store, cat: nat, pids: seq<Word>, pid: Word)
    requires pid in pids
    ensures FirstWithPid(ServedEntries(db, cat, pids), pid) == Some(ServedEntry(db, cat, pid))
  {
    hide ServedSlots, Dense, EntryName;
    if pids[0] != pid {
      assert pid in pids[1..];
      FirstServed(db, cat, pids[1..], pid);
      assert ServedEntries(db, cat, pids)[1..] == ServedEntries(db, cat, pids[1..]);
    }
  }

  // A client looking for its pid in the m=9 reply finds the vector the server keeps for it.
  lemma ServedReadsBack(db: Store, cat: nat, pids: seq<Word>, pid: Word)
    requires |pids| < 0x1_0000_0000 && pid in pids
    ensures var found := FindEntry(UserStatsReply(db, cat, pids), 4, |pids|, pid);
            found.Some? && found.value.vec1 == ServedEntry(db, cat, pid).vec1
  {
    hide ServedEntry, EntriesBytes, FindEntry, Writable, FirstWithPid;
    var es := ServedEntries(db, cat, pids);
    forall e | e in es ensures Writable(e) {
      var i :| 0 <= i < |es| && es[i] == e;
      ServedWritable(db, cat, pids[i]);
    }
    var reply := UserStatsReply(db, cat, pids);
    HasMiddle(Le32(|pids|), EntriesBytes(es), []);
    assert Le32(|pids|) + EntriesBytes(es) + [] == reply;
    FirstServed(db, cat, pids, pid);
    FindEntryRoundTrip(reply, 4, es, pid);
  }

  // Slot i of a saved upload comes back at vec1[i+5] of the cat 101 entry (within its 96 slots)
  // and, if it is one of the documented slots, at vec1[i-56] of the cat 102 entry.
  lemma ServedIsSaved(db: Store, pid: Word, v: seq<Word>, i: nat)
    requires pid in db.career && db.career[pid] == PackVec0(v) && i < VEC0_LEN
    ensures i + 5 < VEC1_LEN ==> ServedEntry(db, 101, pid).vec1[i + 5] == Padded(v)[i]
    ensures i >= 56 && Cat102Slot(i - 56) ==> ServedEntry(db, 102, pid).vec1[i - 56] == Padded(v)[i]
  {
    hide ServedEntry, Padded;
    CareerFrames(db, pid, v);
  }

  // The whole reply: as many entries as pids, in their order, and nothing behind them.
  lemma ServedInOrder(db: Store, cat: nat, pids: seq<Word>)
    requires |pids| < 0x1_0000_0000
    ensures var reply := UserStatsReply(db, cat, pids);
            && |reply| >= 4 && U32(reply, 0) == |pids| && EntriesAt(reply, 4, |pids|).Some?
            && var (rs, end) := EntriesAt(reply, 4, |pids|).value;
               |rs| == |pids| && end == |reply|
               && forall k | 0 <= k < |pids| :: Reads(rs[k], ServedEntry(db, cat, pids[k]))
  {
    hide ServedEntry, EntriesBytes, EntriesAt, Writable, Reads;
    var es := ServedEntries(db, cat, pids);
    var reply := UserStatsReply(db, cat, pids);
    forall e | e in es ensures Writable(e) {
      var i :| 0 <= i < |es| && es[i] == e;
      ServedWritable(db, cat, pids[i]);
    }
    U32OfLe32([], |pids|, EntriesBytes(es));
    HasMiddle(Le32(|pids|), EntriesBytes(es), []);
    assert reply == [] + Le32(|pids|) + EntriesBytes(es) == Le32(|pids|) + EntriesBytes(es) + [];
    EntriesRoundTrip(reply, 4, es);
    assert forall k | 0 <= k < |pids| :: es[k] == ServedEntry(db, cat, pids[k]);
  }

  // From request to reply: a client that asks for some players by their pids, and looks for one of them in the
  // answer, finds the vector the server keeps for that player in that category.
  lemma AskedIsServed(db: Store, cat: Word, pids: seq<Word>, rest: seq<Byte>, pid: Word)
    requires |pids| < 0x1_0000_0000 && 0 !in pids && pid in pids
    ensures var params := Request(cat, pids, rest);
            WordAt(params, 0) == cat && NonZeros(Asked(params)) == pids
    ensures var params := Request(cat, pids, rest);
            var found := FindEntry(UserStatsReply(db, WordAt(params, 0), NonZeros(Asked(params))), 4, |pids|, pid);
            found.Some? && found.value.vec1 == ServedEntry(db, cat, pid).vec1
  {
    RequestAsks(cat, pids, rest);
    NoZeros(pids);
    ServedReadsBack(db, cat, pids, pid);
  }

  // The later rows of a match leave the board of an earlier one alone, its own category being none of theirs.
  lemma {:induction false} LaterRows(db: Store, pid: Word, rows: seq<BoardRow>, k: nat)
    requires k < |rows|
    requires forall j | k < j < |rows| :: rows[j].category != rows[k].category
    ensures BoardOf(UpsertBoards(db, pid, rows), pid, rows[k].category) == rows[k].row
  {
    if k < |rows| - 1 {
      LaterRows(db, pid, rows[..|rows| - 1], k);
    }
  }

  // The rows of an instant upload: one per block for its board, no two for one board.
  lemma InstantRows(v0: seq<Word>, v1: seq<Word>, block: nat)
    requires block < 6 && |v1| >= 31 && ComputeRows(v0, v1).Some?
    ensures var rows := ComputeRows(v0, v1).value;
            && |rows| == 7 && rows[block] == InstantRow(v1, block) && rows[block].category >= 201
            && (forall j | block < j < 7 :: rows[j].category != rows[block].category) && Finite(v1[9 + 4 * block])
  {
    hide Truncated;
  }

  lemma BoardSlotsServed(db: Store, pid: Word, cat: nat)
    requires cat >= 201
    ensures var served, row := ServedEntry(db, cat, pid).vec1, BoardOf(db, pid, cat);
            |served| > 7 && served[5] == row.cash && served[6] == row.modeStat && served[7] == FloatOf(row.mapId)
  {
    hide FloatOf;
  }

  // Slots 5, 6 and 7 of the board an instant match-block feeds are the block's own, the map without its fraction:
  // a whole map id comes back bit for bit.
  lemma BoardIsServed(db: Store, pid: Word, v0: seq<Word>, v1: seq<Word>, block: nat)
    requires block < 6 && |v1| >= 31
    requires ComputeRows(v0, v1).Some? && Storable(ComputeRows(v0, v1).value)
    ensures var after := PersistMatch(db, pid, v0, ComputeRows(v0, v1).value, true);
            var served := ServedEntry(after, INSTANT_BOARDS[block], pid).vec1; var base := 7 + 4 * block;
            && served[5] == v1[base] && served[6] == v1[base + 1] && Truncated(served[7]) == Truncated(v1[base + 2])
            && (Whole(v1[base + 2]) ==> served[7] == v1[base + 2])
  {
    hide Truncated, FloatOf, Whole, Finite, Storable, ComputeRows, UpsertBoards, UpsertCareer, ServedEntry, BoardOf;
    var rows := ComputeRows(v0, v1).value;
    var after := UpsertBoards(UpsertCareer(db, pid, v0), pid, rows);
    InstantRows(v0, v1, block);
    LaterRows(UpsertCareer(db, pid, v0), pid, rows, block);
    BoardSlotsServed(after, pid, rows[block].category);
    TruncatedTwice(v1[9 + 4 * block]);
  }

  // ---- the frames, slot by slot ------------------------------------------------------------------

  // A stored career in both of its frames: the player statistics five slots further on; of the power-ups the three
  // counters, the sixteen specials and two more, everything else empty.
  lemma CareerFrames(db: Store, pid: Word, v: seq<Word>)
    requires pid in db.career && db.career[pid] == PackVec0(v)
    ensures var saved, a, b := Padded(v), ServedEntry(db, 101, pid).vec1, ServedEntry(db, 102, pid).vec1;
            && (forall j | 0 <= j < 96 :: a[j] == if j < 5 then 0 else saved[j - 5])
            && b[5] == saved[61] && b[6] == saved[62] && b[7] == saved[63]
            && (forall j | 8 <= j < 24 :: b[j] == saved[j + 56])
            && b[24] == saved[80] && b[28] == saved[84]
            && (forall j | 0 <= j < 96 && (j < 5 || 25 <= j < 28 || 29 <= j) :: b[j] == 0)
  {
    hide EntryName, PackVec0, Padded;
    UnpackPack(v);
  }

  // A player who never uploaded is served version 1002.0 and nothing else.
  lemma NewcomerFrames(db: Store, pid: Word)
    requires pid !in db.career
    ensures var a, b := ServedEntry(db, 101, pid).vec1, ServedEntry(db, 102, pid).vec1;
            && Truncated(a[5]) == 1002 && Whole(a[5])
            && (forall j | 0 <= j < 96 && j != 5 :: a[j] == 0) && (forall j | 0 <= j < 96 :: b[j] == 0)
  {
    hide Truncated, Whole;
    VersionIs();
  }

  lemma VersionIs()
    ensures Truncated(STATS_VERSION) == 1002 && Whole(STATS_VERSION)
  {
    assert Exponent(STATS_VERSION) == 136 && Significand(STATS_VERSION) == 0xFA_8000;
    assert Pow2(14) == 0x4000 by {
      assert Pow2(7) == 128;
      Pow2Sum(7, 7);
    }
  }

  // Boards show their three columns, all other categories nothing; no entry shows anything but vec1.
  lemma BoardFrames(db: Store, cat: nat, pid: Word)
    ensures var e := ServedEntry(db, cat, pid);
            && e.pid == pid && e.txn == 0 && |e.vec0| == 122 && |e.vec1| == 96 && e.vec2 == []
            && (forall j | 0 <= j < 122 :: e.vec0[j] == 0)
            && (cat >= 201 ==>
                  var row := if (pid, cat) in db.boards then db.boards[(pid, cat)] else Row(0, 0, 0);
                  e.vec1[5] == row.cash && e.vec1[6] == row.modeStat && e.vec1[7] == FloatOf(row.mapId)
                  && forall j | 0 <= j < 96 && j !in {5, 6, 7} :: e.vec1[j] == 0)
            && (cat < 201 && cat != 101 && cat != 102 ==> forall j | 0 <= j < 96 :: e.vec1[j] == 0)
  {
    hide FloatOf, EntryName;
  }

  // ---- what an upload writes, board by board ------------------------------------------------------

  predicate Same(a: Store, b: Store, pid: Word, cat: nat) { BoardOf(a, pid, cat) == BoardOf(b, pid, cat) }

  // The upload's rows can be computed unless it is an instant one with a map slot that is not finite.
  lemma RowsIff(v0: seq<Word>, v1: seq<Word>)
    ensures ComputeRows(v0, v1).None?
       <==> |v1| >= 31 && exists k :: k in [9, 13, 17, 21, 25, 29] && v1[k] % 0x8000_0000 >= 0x7F80_0000
  {
    hide Truncated, Finite;
    if |v1| >= 31 {
      forall b | 0 <= b < 6 ensures Finite(v1[9 + 4 * b]) <==> v1[9 + 4 * b] % 0x8000_0000 < 0x7F80_0000 {
        FiniteIff(v1[9 + 4 * b]);
      }
      assert [9, 13, 17, 21, 25, 29] == seq(6, b => 9 + 4 * b);
      forall k | k in [9, 13, 17, 21, 25, 29] ensures exists b :: 0 <= b < 6 && k == 9 + 4 * b {
        var b :| 0 <= b < 6 && [9, 13, 17, 21, 25, 29][b] == k;
      }
      forall b | 0 <= b < 6 ensures 9 + 4 * b in [9, 13, 17, 21, 25, 29] {
        assert [9, 13, 17, 21, 25, 29][b] == 9 + 4 * b;
      }
    }
  }

  // A stored instant upload: six blocks of four in job order, each for its own board, and the cash board.
  lemma InstantBoards(db: Store, pid: Word, v0: seq<Word>, v1: seq<Word>)
    requires |v1| >= 31 && ComputeRows(v0, v1).Some? && Storable(ComputeRows(v0, v1).value)
    ensures var after := PersistMatch(db, pid, v0, ComputeRows(v0, v1).value, true);
            && after.career == db.career[pid := PackVec0(v0)]
            && BoardOf(after, pid, 303) == Row(v1[7], v1[8], Truncated(v1[9]))
            && BoardOf(after, pid, 302) == Row(v1[11], v1[12], Truncated(v1[13]))
            && BoardOf(after, pid, 304) == Row(v1[15], v1[16], Truncated(v1[17]))
            && BoardOf(after, pid, 307) == Row(v1[19], v1[20], Truncated(v1[21]))
            && BoardOf(after, pid, 305) == Row(v1[23], v1[24], Truncated(v1[25]))
            && BoardOf(after, pid, 306) == Row(v1[27], v1[28], Truncated(v1[29]))
            && BoardOf(after, pid, 301) == Row(if |v0| > 5 then v0[5] else 0, 0, 0)
            && (forall cat: nat | cat < 301 || cat > 307 :: Same(after, db, pid, cat))
  {
    hide Truncated, Storable, Finite, UpsertBoards;
    var rows := ComputeRows(v0, v1).value;
    var start := UpsertCareer(db, pid, v0);
    BoardsLeaveCareer(start, pid, rows);
    assert rows[6] == BoardRow(301, Row(if |v0| > 5 then v0[5] else 0, 0, 0));
    LaterRows(start, pid, rows, 6);
    forall block | 0 <= block < 6
      ensures BoardOf(UpsertBoards(start, pid, rows), pid, rows[block].category) == rows[block].row
    {
      InstantRows(v0, v1, block);
      LaterRows(start, pid, rows, block);
    }
    assert rows[0] == BoardRow(303, rows[0].row) && rows[1] == BoardRow(302, rows[1].row)
           && rows[2] == BoardRow(304, rows[2].row) && rows[3] == BoardRow(307, rows[3].row)
           && rows[4] == BoardRow(305, rows[4].row) && rows[5] == BoardRow(306, rows[5].row);
    forall cat: nat | cat < 301 || cat > 307 ensures Same(UpsertBoards(start, pid, rows), db, pid, cat) {
      Unlisted(start, pid, rows, cat);
    }
  }

  // A stored campaign upload: the cash board, from slot 5 of the second vector. A shorter one writes no board.
  lemma CampaignBoards(db: Store, pid: Word, v0: seq<Word>, v1: seq<Word>)
    requires |v1| < 31 && ComputeRows(v0, v1).Some? && Storable(ComputeRows(v0, v1).value)
    ensures var after := PersistMatch(db, pid, v0, ComputeRows(v0, v1).value, true);
            && after.career == db.career[pid := PackVec0(v0)]
            && (|v1| >= 15 ==> BoardOf(after, pid, 201) == Row(v1[5], 0, 0))
            && (forall cat: nat | |v1| < 15 || cat != 201 :: Same(after, db, pid, cat))
  {
    hide Storable;
    var rows := ComputeRows(v0, v1).value;
    var start := UpsertCareer(db, pid, v0);
    BoardsLeaveCareer(start, pid, rows);
    forall cat: nat | |v1| < 15 || cat != 201 ensures Same(UpsertBoards(start, pid, rows), db, pid, cat) {
      Unlisted(start, pid, rows, cat);
    }
  }

  lemma {:induction false} Unlisted(db: Store, pid: Word, rows: seq<BoardRow>, cat: nat)
    requires forall i | 0 <= i < |rows| :: rows[i].category != cat
    ensures BoardOf(UpsertBoards(db, pid, rows), pid, cat) == BoardOf(db, pid, cat)
  {
    if rows != [] {
      Unlisted(db, pid, rows[..|rows| - 1], cat);
    }
  }

  // Nothing is written unless the write succeeds, no cash or statistic is a NaN and every map id fits 64 bits.
  lemma WritesIff(db: Store, pid: Word, v0: seq<Word>, rows: seq<BoardRow>, ok: bool)
    ensures var fine := forall i | 0 <= i < |rows| ::
                          && rows[i].row.cash % 0x8000_0000 <= 0x7F80_0000
                          && rows[i].row.modeStat % 0x8000_0000 <= 0x7F80_0000
                          && -0x8000_0000_0000_0000 <= rows[i].row.mapId < 0x8000_0000_0000_0000;
            if ok && fine then PersistMatch(db, pid, v0, rows, ok).career == db.career[pid := PackVec0(v0)]
            else PersistMatch(db, pid, v0, rows, ok) == db
  {
    hide IsNaN;
    BoardsLeaveCareer(UpsertCareer(db, pid, v0), pid, rows);
    forall i | 0 <= i < |rows|
      ensures IsNaN(rows[i].row.cash) <==> rows[i].row.cash % 0x8000_0000 > 0x7F80_0000
      ensures IsNaN(rows[i].row.modeStat) <==> rows[i].row.modeStat % 0x8000_0000 > 0x7F80_0000
    {
      FiniteIff(rows[i].row.cash);
      FiniteIff(rows[i].row.modeStat);
    }
  }
}
