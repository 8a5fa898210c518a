/**
  Leaderboards: the ranking query of db/career.py and the paging and numbering
  of rows in `leaderboard_query` (protocols/game.py). The database may order
  rows of equal cash either way, so a ranking is a relation, not a function.
*/
module Leaderboard {
  import opened Options
  import opened Bytes
  import opened Floats
  import opened RmcTypes
  import opened SparkStats
  import opened Career

  datatype Ranked = Ranked(pid: Word, row: Row)

  // Floats above 0, infinity included, not NaN; they are ordered as their words are.
  predicate Positive(cash: Word) { 0 < cash <= 0x7F80_0000 }

  lemma PositiveIff(cash: Word)
    ensures Positive(cash) <==> !Negative(cash) && !IsNaN(cash) && cash != 0
  {
    FiniteIff(cash);
  }

  function PidsOf(rs: seq<Ranked>): set<Word> { set r | r in rs :: r.pid }

  // An answer to `SELECT ... WHERE category=? AND cash > 0 ORDER BY cash DESC`.
  ghost predicate IsRanking(db: Store, cat: nat, rs: seq<Ranked>) {
    && (forall i | 0 <= i < |rs| ::
          (rs[i].pid, cat) in db.boards && rs[i].row == db.boards[(rs[i].pid, cat)] && Positive(rs[i].row.cash))
    && (forall pid | (pid, cat) in db.boards && Positive(db.boards[(pid, cat)].cash) :: pid in PidsOf(rs))
    && (forall i, j | 0 <= i < j < |rs| :: rs[i].pid != rs[j].pid)
    && (forall i, j | 0 <= i < j < |rs| :: rs[i].row.cash >= rs[j].row.cash)
  }

  // ---- the query ----------------------------------------------------------------------------

  // Below every row of at least its cash.
  function Insert(rs: seq<Ranked>, r: Ranked): seq<Ranked> {
    if rs == [] || rs[0].row.cash < r.row.cash then [r] + rs else [rs[0]] + Insert(rs[1..], r)
  }

  predicate Descending(rs: seq<Ranked>) {
    forall i, j | 0 <= i < j < |rs| :: rs[i].row.cash >= rs[j].row.cash && rs[i].pid != rs[j].pid
  }

  lemma {:induction false} InsertAdds(rs: seq<Ranked>, r: Ranked)
    ensures multiset(Insert(rs, r)) == multiset(rs) + multiset{r}
  {
    if rs == [] || rs[0].row.cash < r.row.cash {
      assert Insert(rs, r) == [r] + rs;
    } else {
      InsertAdds(rs[1..], r);
      assert rs == [rs[0]] + rs[1..];
    }
  }

  lemma {:induction false} InsertMember(rs: seq<Ranked>, r: Ranked, s: Ranked)
    requires s in Insert(rs, r)
    ensures s == r || s in rs
  {
    if rs != [] && rs[0].row.cash >= r.row.cash && s != rs[0] {
      InsertMember(rs[1..], r, s);
    }
  }

  lemma {:induction false} InsertKeeps(rs: seq<Ranked>, r: Ranked)
    requires Descending(rs) && r.pid !in PidsOf(rs)
    ensures Descending(Insert(rs, r))
  {
    if rs == [] || rs[0].row.cash < r.row.cash {
      assert Insert(rs, r) == [r] + rs;
    } else {
      var rest := Insert(rs[1..], r);
      InsertKeeps(rs[1..], r);
      hide Insert;
      forall k | 0 <= k < |rest| ensures rs[0].row.cash >= rest[k].row.cash && rs[0].pid != rest[k].pid {
        InsertMember(rs[1..], r, rest[k]);
      }
    }
  }

  // The rows of a category whose keys are among `done`.
  ghost predicate Ranks(db: Store, cat: nat, done: set<(Word, nat)>, rs: seq<Ranked>) {
    && Descending(rs)
    && forall r :: r in multiset(rs) <==>
         && (r.pid, cat) in done && (r.pid, cat) in db.boards
         && r.row == db.boards[(r.pid, cat)] && Positive(r.row.cash)
  }

  lemma RanksAll(db: Store, cat: nat, rs: seq<Ranked>)
    requires Ranks(db, cat, db.boards.Keys, rs)
    ensures IsRanking(db, cat, rs)
  {
    forall pid | (pid, cat) in db.boards && Positive(db.boards[(pid, cat)].cash) ensures pid in PidsOf(rs) {
      assert Ranked(pid, db.boards[(pid, cat)]) in multiset(rs);
    }
    forall i | 0 <= i < |rs| ensures rs[i] in multiset(rs) {
    }
  }

  // `ranked_for_category`: the table's rows in whatever order they come, each put in its place.
  method RankedForCategory(database: Database, cat: nat) returns (ranked: seq<Ranked>)
    ensures IsRanking(database.View(), cat, ranked)
  {
    var db := Store(database.career, database.boards);
    var todo: set<(Word, nat)> := db.boards.Keys;
    ranked := [];
    while todo != {}
      invariant todo <= db.boards.Keys && Ranks(db, cat, db.boards.Keys - todo, ranked)
    {
      var key :| key in todo;
      ghost var before := ranked;
      var r := Ranked(key.0, db.boards[key]);
      if key.1 == cat && Positive(r.row.cash) {
        NewToRanking(db, cat, db.boards.Keys - todo, ranked, r.pid);
        InsertKeeps(ranked, r);
        InsertAdds(ranked, r);
        ranked := Insert(ranked, r);
      }
      todo := todo - {key};
      NextRow(db, cat, db.boards.Keys - todo, key, before, ranked);
    }
    assert db.boards.Keys - todo == db.boards.Keys;
    RanksAll(db, cat, ranked);
  }

  lemma NewToRanking(db: Store, cat: nat, done: set<(Word, nat)>, rs: seq<Ranked>, pid: Word)
    requires Ranks(db, cat, done, rs) && (pid, cat) !in done
    ensures pid !in PidsOf(rs)
  {
    forall r | r in rs ensures r.pid != pid {
      assert r in multiset(rs);
    }
  }

  lemma NextRow(db: Store, cat: nat, done: set<(Word, nat)>, key: (Word, nat), before: seq<Ranked>, rs: seq<Ranked>)
    requires key in db.boards && key in done && Ranks(db, cat, done - {key}, before) && Descending(rs)
    requires var r := Ranked(key.0, db.boards[key]);
             if key.1 == cat && Positive(r.row.cash) then multiset(rs) == multiset(before) + multiset{r}
             else rs == before
    ensures Ranks(db, cat, done, rs)
  {
  }

  // The players at or above an amount.
  function AtLeast(rs: seq<Ranked>, cash: Word): set<Word> { set r | r in rs && r.row.cash >= cash :: r.pid }

  lemma AtLeastAgree(db: Store, cat: nat, rs: seq<Ranked>, ss: seq<Ranked>, cash: Word)
    requires IsRanking(db, cat, rs) && IsRanking(db, cat, ss)
    ensures AtLeast(rs, cash) <= AtLeast(ss, cash)
  {
    forall pid | pid in AtLeast(rs, cash) ensures pid in AtLeast(ss, cash) {
      var r :| r in rs && r.pid == pid && r.row.cash >= cash;
      assert pid in PidsOf(ss);
      var s :| s in ss && s.pid == pid;
      assert s.row == r.row;
    }
  }

  lemma {:induction false} PidsCount(rs: seq<Ranked>)
    requires forall i, j | 0 <= i < j < |rs| :: rs[i].pid != rs[j].pid
    ensures |PidsOf(rs)| == |rs|
  {
    if rs != [] {
      var n := |rs| - 1;
      PidsCount(rs[..n]);
      assert PidsOf(rs) == PidsOf(rs[..n]) + {rs[n].pid} by { assert rs == rs[..n] + [rs[n]]; }
    }
  }

  // The first k rows are at least the k-th row's cash; rows below it by cash come later.
  lemma PrefixAtLeast(db: Store, cat: nat, rs: seq<Ranked>, k: nat)
    requires IsRanking(db, cat, rs) && k < |rs|
    ensures |AtLeast(rs, rs[k].row.cash)| >= k + 1
    ensures k + 1 < |rs| && rs[k + 1].row.cash < rs[k].row.cash ==> |AtLeast(rs, rs[k].row.cash)| == k + 1
  {
    PidsCount(rs[..k + 1]);
    SubsetSize(PidsOf(rs[..k + 1]), AtLeast(rs, rs[k].row.cash));
    if k + 1 < |rs| && rs[k + 1].row.cash < rs[k].row.cash {
      assert AtLeast(rs, rs[k].row.cash) == PidsOf(rs[..k + 1]);
    }
  }

  lemma SubsetSize(a: set<Word>, b: set<Word>)
    requires a <= b
    ensures |a| <= |b|
  {
    assert b == a + (b - a);
  }

  // Cash strictly below the k-th row's: too few players reach it for row k to be there.
  lemma AboveIsShort(db: Store, cat: nat, rs: seq<Ranked>, k: nat, cash: Word)
    requires IsRanking(db, cat, rs) && k < |rs| && rs[k].row.cash < cash
    ensures |AtLeast(rs, cash)| <= k
  {
    PidsCount(rs[..k]);
    assert AtLeast(rs, cash) <= PidsOf(rs[..k]);
    SubsetSize(AtLeast(rs, cash), PidsOf(rs[..k]));
  }

  // Two answers to the query may swap players of equal cash and nothing else: they rank the same players,
  // and row k shows the same cash in both.
  lemma RankingsAgree(db: Store, cat: nat, rs: seq<Ranked>, ss: seq<Ranked>)
    requires IsRanking(db, cat, rs) && IsRanking(db, cat, ss)
    ensures |rs| == |ss| && PidsOf(rs) == PidsOf(ss)
    ensures forall k | 0 <= k < |rs| :: rs[k].row.cash == ss[k].row.cash
  {
    PidsCount(rs);
    PidsCount(ss);
    assert PidsOf(rs) == PidsOf(ss);
    forall k | 0 <= k < |rs| ensures rs[k].row.cash == ss[k].row.cash {
      NotBelow(db, cat, rs, ss, k);
      NotBelow(db, cat, ss, rs, k);
    }
  }

  lemma NotBelow(db: Store, cat: nat, rs: seq<Ranked>, ss: seq<Ranked>, k: nat)
    requires IsRanking(db, cat, rs) && IsRanking(db, cat, ss) && k < |rs| && k < |ss|
    ensures ss[k].row.cash >= rs[k].row.cash
  {
    var cash := rs[k].row.cash;
    if ss[k].row.cash < cash {
      PrefixAtLeast(db, cat, rs, k);
      AboveIsShort(db, cat, ss, k, cash);
      AtLeastAgree(db, cat, rs, ss, cash);
      SubsetSize(AtLeast(rs, cash), AtLeast(ss, cash));
      assert false;
    }
  }

  // ---- pages -------------------------------------------------------------------------------

  const LEAD: nat := 3
  const TRAIL: nat := 10

  // Python's slice: both ends cut to the list.
  function Slice<T>(s: seq<T>, from: nat, to: nat): seq<T> {
    if from >= |s| || to <= from then [] else if to > |s| then s[from..] else s[from..to]
  }

  // Position of the first row of `pid`, 0 without one.
  function RankIndex(rs: seq<Ranked>, pid: Word): (i: nat)
    ensures if pid in PidsOf(rs) then i < |rs| && rs[i].pid == pid else i == 0
  {
    if pid in PidsOf(rs) then FirstIndex(rs, pid) else 0
  }

  function FirstIndex(rs: seq<Ranked>, pid: Word): (i: nat)
    requires pid in PidsOf(rs)
    ensures i < |rs| && rs[i].pid == pid && forall j | 0 <= j < i :: rs[j].pid != pid
  {
    if rs[0].pid == pid then 0
    else
      assert pid in PidsOf(rs[1..]) by {
        var r :| r in rs && r.pid == pid;
        assert rs == [rs[0]] + rs[1..];
      }
      1 + FirstIndex(rs[1..], pid)
  }

  // `_leaderboard_page`: the rows and the absolute index of the first.
  function Page(ranked: seq<Ranked>, requester: Word, offset: nat, count: nat,
                aroundSelf: bool): (r: (seq<Ranked>, nat))
    ensures |r.0| <= count && |r.0| <= |ranked|
  {
    if ranked == [] then ([], 0)
    else if aroundSelf then
      var idx := RankIndex(ranked, requester);
      var start := if idx < LEAD then 0 else idx - LEAD;
      (Slice(Slice(ranked, start, idx + 1 + TRAIL), 0, count), start)
    else (Slice(ranked, offset, offset + count), offset)
  }

  // In both views row j of a page is row start + j of the ranking: the printed number is the global rank.
  lemma RowsAreNumbered(ranked: seq<Ranked>, requester: Word, offset: nat, count: nat, aroundSelf: bool, j: nat)
    requires j < |Page(ranked, requester, offset, count, aroundSelf).0|
    ensures var (page, start) := Page(ranked, requester, offset, count, aroundSelf);
            start + j < |ranked| && page[j] == ranked[start + j]
  {
  }

  // The first k Global pages one after the other.
  function Pages(ranked: seq<Ranked>, requester: Word, count: nat, k: nat): seq<Ranked> {
    if k == 0 then []
    else Pages(ranked, requester, count, k - 1) + Page(ranked, requester, (k - 1) * count, count, false).0
  }

  lemma {:induction false} PagesArePrefix(ranked: seq<Ranked>, requester: Word, count: nat, k: nat)
    ensures Pages(ranked, requester, count, k) == Slice(ranked, 0, k * count)
  {
    if k > 0 {
      PagesArePrefix(ranked, requester, count, k - 1);
      var from := (k - 1) * count;
      assert k * count == from + count;
      PrefixThen(ranked, from, from + count);
    }
  }

  lemma PrefixThen(s: seq<Ranked>, m: nat, n: nat)
    requires m <= n
    ensures Slice(s, 0, m) + Slice(s, m, n) == Slice(s, 0, n)
  {
  }

  // Pages of any positive size reassemble the ranking: enough of them are the whole of it, each row once.
  lemma PagesCover(ranked: seq<Ranked>, requester: Word, count: nat, k: nat)
    requires k * count >= |ranked|
    ensures Pages(ranked, requester, count, k) == ranked
  {
    PagesArePrefix(ranked, requester, count, k);
  }

  // The window around a ranked player shows that player exactly if it is long enough to reach its row: at most
  // three rows come before it.
  lemma AroundSelfShowsSelf(ranked: seq<Ranked>, requester: Word, offset: nat, count: nat)
    requires forall i, j | 0 <= i < j < |ranked| :: ranked[i].pid != ranked[j].pid
    requires requester in PidsOf(ranked)
    ensures var idx := RankIndex(ranked, requester); var (page, start) := Page(ranked, requester, offset, count, true);
            var before := if idx < LEAD then idx else LEAD;
            && idx < |ranked| && ranked[idx].pid == requester && start + before == idx
            && (requester in PidsOf(page) <==> count > before)
            && (count > before ==> before < |page| && page[before] == ranked[idx])
  {
    var idx := RankIndex(ranked, requester);
    var (page, start) := Page(ranked, requester, offset, count, true);
    var before := if idx < LEAD then idx else LEAD;
    if requester in PidsOf(page) {
      var r :| r in page && r.pid == requester;
      var j :| 0 <= j < |page| && page[j] == r;
      RowsAreNumbered(ranked, requester, offset, count, true, j);
    }
    if count > before {
      assert page[before] == ranked[idx];
    }
  }

  // ---- the reply -----------------------------------------------------------------------------

  // A row as sent: its number in vec1[0] and as transaction id, the board's columns, the player's own rank.
  function RowEntry(db: Store, names: map<Word, seq<Byte>>, asFloat: nat -> Word, r: Ranked, position: nat): Entry {
    Entry(r.pid, EntryName(r.pid, if r.pid in names then Some(names[r.pid]) else None), position % 0x1_0000_0000,
          Dense(map[19 := Shifted(CareerOf(db, r.pid), 4, 0)], VEC0_LEN),
          Dense(map[0 := asFloat(position), 5 := r.row.cash, 6 := r.row.modeStat, 7 := FloatOf(r.row.mapId)], VEC1_LEN),
          Dense(map[], 1))
  }

  function RowEntries(db: Store, names: map<Word, seq<Byte>>, asFloat: nat -> Word, page: seq<Ranked>,
                      start: nat): (es: seq<Entry>)
    ensures |es| == |page|
  {
    seq(|page|, j requires 0 <= j < |page| => RowEntry(db, names, asFloat, page[j], start + j + 1))
  }

  // `leaderboard_query`: a page of a ranking of the category asked for; of no rows at all if the query raises.
  method LeaderboardQuery(database: Database, names: map<Word, seq<Byte>>, asFloat: nat -> Word, queryOk: bool,
                          requester: Word, params: seq<Byte>, aroundSelf: bool) returns (reply: seq<Byte>)
    ensures exists ranked ::
              && (if queryOk then IsRanking(database.View(), WordAt(params, 0), ranked) else ranked == [])
              && IsPageReply(database.View(), names, asFloat, ranked, requester, params, aroundSelf, reply)
              && ((forall pid | pid in names :: FitsQString(names[pid])) ==>
                    ShowsPage(reply, database.View(), names, asFloat, ranked, requester, params, aroundSelf))
  {
    hide RowEntries, EntriesBytes, WordAt, Le32, IsRanking, ShowsPage;
    var ranked := [];
    if queryOk {
      ranked := RankedForCategory(database, WordAt(params, 0));
    }
    var (page, start) := Page(ranked, requester, WordAt(params, 4), WordAt(params, 8), aroundSelf);
    var db := Store(database.career, database.boards);
    var out := new ByteBuffer();
    out.WU32(|page|);
    assert out.data == Le32(|page|);
    WriteRows(out, db, names, asFloat, page, start);
    reply := out.data;
    assert IsPageReply(database.View(), names, asFloat, ranked, requester, params, aroundSelf, reply);
    if forall pid | pid in names :: FitsQString(names[pid]) {
      ReplyShowsRanks(database.View(), names, asFloat, ranked, requester, params, aroundSelf, reply);
    }
  }

  // The bytes of the page that a request names.
  ghost predicate IsPageReply(db: Store, names: map<Word, seq<Byte>>, asFloat: nat -> Word, ranked: seq<Ranked>,
                              requester: Word, params: seq<Byte>, aroundSelf: bool, reply: seq<Byte>) {
    var (page, start) := Page(ranked, requester, WordAt(params, 4), WordAt(params, 8), aroundSelf);
    |page| < 0x1_0000_0000 && reply == Le32(|page|) + EntriesBytes(RowEntries(db, names, asFloat, page, start))
  }

  method WriteRows(out: ByteBuffer, db: Store, names: map<Word, seq<Byte>>, asFloat: nat -> Word, page: seq<Ranked>,
                   start: nat)
    modifies out
    ensures out.data == old(out.data) + EntriesBytes(RowEntries(db, names, asFloat, page, start))
  {
    hide EntryBytes, RowEntry;
    ghost var es := RowEntries(db, names, asFloat, page, start);
    ghost var head := out.data;
    assert es[..0] == [] && head + [] == head;
    for j := 0 to |page|
      invariant out.data == head + EntriesBytes(es[..j])
    {
      ghost var body := EntriesBytes(es[..j]);
      WriteRow(out, db, names, asFloat, page[j], start + j + 1);
      EntriesBytesSnoc(es[..j], es[j]);
      assert es[..j + 1] == es[..j] + [es[j]];
      assert head + body + EntryBytes(es[j]) == head + (body + EntryBytes(es[j]));
    }
    assert es[..|page|] == es;
  }

  method WriteRow(out: ByteBuffer, db: Store, names: map<Word, seq<Byte>>, asFloat: nat -> Word, r: Ranked,
                  position: nat)
    modifies out
    ensures out.data == old(out.data) + EntryBytes(RowEntry(db, names, asFloat, r, position))
  {
    hide EntryBytes, EntryName, CareerOf, Shifted;
    var rank := Shifted(CareerOf(db, r.pid), 4, 0);
    WriteEntry(out, r.pid, map[19 := rank],
               map[0 := asFloat(position), 5 := r.row.cash, 6 := r.row.modeStat, 7 := FloatOf(r.row.mapId)], map[],
               position, 1, if r.pid in names then Some(names[r.pid]) else None);
  }

  // ---- what the client reads ------------------------------------------------------------------

  // The rank a player last uploaded: the fifth word of its stored career.
  function StoredRank(db: Store, pid: Word): Word {
    if pid in db.career && |db.career[pid]| >= 20 then U32(db.career[pid], 16) else 0
  }

  // Entry `r` is row number `n` of the ranking, counted from 1: who, the number twice, the board's three columns,
  // the player's rank, and nothing in any other slot.
  predicate ShowsRow(r: Reading, db: Store, names: map<Word, seq<Byte>>, asFloat: nat -> Word, ranked: seq<Ranked>,
                     n: nat) {
    && 1 <= n <= |ranked|
    && var row := ranked[n - 1];
       && r.pid == row.pid && r.txn == n % 0x1_0000_0000
       && r.name == (if row.pid in names && names[row.pid] != [] then names[row.pid]
                     else [80, 73, 68] + Decimal(row.pid))
       && |r.vec1| == 96 && r.vec1[0] == asFloat(n)
       && r.vec1[5] == row.row.cash && r.vec1[6] == row.row.modeStat && r.vec1[7] == FloatOf(row.row.mapId)
       && (forall j | 0 <= j < 96 && j !in {0, 5, 6, 7} :: r.vec1[j] == 0)
       && |r.vec0| == 122 && r.vec0[19] == StoredRank(db, row.pid)
       && (forall j | 0 <= j < 122 && j != 19 :: r.vec0[j] == 0)
  }

  // Where the requester stands; at the top if it is not ranked.
  predicate Stands(ranked: seq<Ranked>, requester: Word, me: nat) {
    if exists j :: 0 <= j < |ranked| && ranked[j].pid == requester then
      me < |ranked| && ranked[me].pid == requester && forall j | 0 <= j < me :: ranked[j].pid != requester
    else
      me == 0
  }

  // The rows asked for: from an offset on, or from three above the requester to ten below, never more than the limit.
  function FirstRow(params: seq<Byte>, aroundSelf: bool, me: nat): nat {
    if aroundSelf then (if me < 3 then 0 else me - 3) else if |params| >= 8 then U32(params, 4) else 0
  }

  function RowCount(rows: nat, params: seq<Byte>, aroundSelf: bool, me: nat): nat {
    var first := FirstRow(params, aroundSelf, me);
    var limit := if |params| >= 12 then U32(params, 8) else 0;
    var end := if aroundSelf && me + 11 < rows then me + 11 else rows;
    if end <= first then 0 else if end - first < limit then end - first else limit
  }

  ghost predicate ShowsPage(reply: seq<Byte>, db: Store, names: map<Word, seq<Byte>>, asFloat: nat -> Word,
                            ranked: seq<Ranked>, requester: Word, params: seq<Byte>, aroundSelf: bool) {
    exists me :: Stands(ranked, requester, me)
                 && ShowsRows(reply, db, names, asFloat, ranked, FirstRow(params, aroundSelf, me),
                              RowCount(|ranked|, params, aroundSelf, me))
  }

  // The whole reply is `count` entries, the k-th of them row `first` + k + 1 of the ranking.
  predicate ShowsRows(reply: seq<Byte>, db: Store, names: map<Word, seq<Byte>>, asFloat: nat -> Word,
                      ranked: seq<Ranked>, first: nat, count: nat) {
    && |reply| >= 4 && U32(reply, 0) == count && EntriesAt(reply, 4, count).Some?
    && var (rs, end) := EntriesAt(reply, 4, count).value;
       |rs| == count && end == |reply|
       && forall k | 0 <= k < count :: ShowsRow(rs[k], db, names, asFloat, ranked, first + k + 1)
  }

  lemma PageIs(ranked: seq<Ranked>, requester: Word, params: seq<Byte>, aroundSelf: bool) returns (me: nat)
    ensures Stands(ranked, requester, me)
    ensures var (page, start) := Page(ranked, requester, WordAt(params, 4), WordAt(params, 8), aroundSelf);
            var first, count := FirstRow(params, aroundSelf, me), RowCount(|ranked|, params, aroundSelf, me);
            && |page| == count && (count > 0 ==> start == first)
            && forall k | 0 <= k < count :: first + k < |ranked| && page[k] == ranked[first + k]
  {
    me := RankIndex(ranked, requester);
    if requester in PidsOf(ranked) {
      me := FirstIndex(ranked, requester);
      var r :| r in ranked && r.pid == requester;
      var j :| 0 <= j < |ranked| && ranked[j] == r;
    } else {
      forall j | 0 <= j < |ranked| ensures ranked[j].pid != requester {
        assert ranked[j] in ranked;
      }
    }
    PageRows(ranked, requester, params, aroundSelf, me);
  }

  lemma PageRows(ranked: seq<Ranked>, requester: Word, params: seq<Byte>, aroundSelf: bool, me: nat)
    requires me == RankIndex(ranked, requester) && (ranked != [] ==> me < |ranked|)
    ensures var (page, start) := Page(ranked, requester, WordAt(params, 4), WordAt(params, 8), aroundSelf);
            var first, count := FirstRow(params, aroundSelf, me), RowCount(|ranked|, params, aroundSelf, me);
            && |page| == count && (count > 0 ==> start == first)
            && forall k | 0 <= k < count :: first + k < |ranked| && page[k] == ranked[first + k]
  {
    hide RankIndex, PidsOf, U32;
    if aroundSelf {
      WindowRows(ranked, requester, params, me);
    } else {
      OffsetRows(ranked, requester, params, me);
    }
  }

  lemma SliceIs(s: seq<Ranked>, from: nat, to: nat)
    ensures |Slice(s, from, to)| == if from >= |s| || to <= from then 0 else if to > |s| then |s| - from else to - from
    ensures forall k | 0 <= k < |Slice(s, from, to)| :: from + k < |s| && Slice(s, from, to)[k] == s[from + k]
  {
  }

  lemma WindowRows(ranked: seq<Ranked>, requester: Word, params: seq<Byte>, me: nat)
    requires me == RankIndex(ranked, requester) && (ranked != [] ==> me < |ranked|)
    ensures var (page, start) := Page(ranked, requester, WordAt(params, 4), WordAt(params, 8), true);
            var first, count := FirstRow(params, true, me), RowCount(|ranked|, params, true, me);
            && |page| == count && (count > 0 ==> start == first)
            && forall k | 0 <= k < count :: first + k < |ranked| && page[k] == ranked[first + k]
  {
    hide RankIndex, PidsOf, U32, Slice;
    if ranked != [] {
      var first := FirstRow(params, true, me);
      var window, limit := Slice(ranked, first, me + 11), WordAt(params, 8);
      SliceIs(ranked, first, me + 11);
      SliceIs(window, 0, limit);
      var page := Slice(window, 0, limit);
      forall k | 0 <= k < |page| ensures first + k < |ranked| && page[k] == ranked[first + k] {
        assert page[k] == window[k];
      }
    }
  }

  lemma OffsetRows(ranked: seq<Ranked>, requester: Word, params: seq<Byte>, me: nat)
    ensures var (page, start) := Page(ranked, requester, WordAt(params, 4), WordAt(params, 8), false);
            var first, count := FirstRow(params, false, me), RowCount(|ranked|, params, false, me);
            && |page| == count && (count > 0 ==> start == first)
            && forall k | 0 <= k < count :: first + k < |ranked| && page[k] == ranked[first + k]
  {
    hide RankIndex, PidsOf, U32, Slice;
    var first: nat, limit: nat := WordAt(params, 4), WordAt(params, 8);
    SliceIs(ranked, first, first + limit);
  }

  lemma RowEntryShows(db: Store, names: map<Word, seq<Byte>>, asFloat: nat -> Word, ranked: seq<Ranked>, n: nat,
                      r: Reading)
    requires 1 <= n <= |ranked| && Reads(r, RowEntry(db, names, asFloat, ranked[n - 1], n))
    ensures ShowsRow(r, db, names, asFloat, ranked, n)
  {
    hide FloatOf, Decimal, U32;
    var pid := ranked[n - 1].pid;
    if pid in db.career {
      assert |db.career[pid]| / 4 > 4 <==> |db.career[pid]| >= 20;
    }
  }

  lemma RowEntryWritable(db: Store, names: map<Word, seq<Byte>>, asFloat: nat -> Word, r: Ranked, n: nat)
    requires r.pid in names ==> FitsQString(names[r.pid])
    ensures Writable(RowEntry(db, names, asFloat, r, n))
  {
    hide CareerOf, FloatOf;
    assert Pow10(5) == 100000;
    assert Pow10(10) == 10000000000;
    DecimalShort(r.pid, 10);
  }

  // Both views, every request: the client reads one entry per row of the page, each carrying the row's own number
  // in the ranking, whatever the page starts with.
  lemma ReplyShowsRanks(db: Store, names: map<Word, seq<Byte>>, asFloat: nat -> Word, ranked: seq<Ranked>,
                        requester: Word, params: seq<Byte>, aroundSelf: bool, reply: seq<Byte>)
    requires IsPageReply(db, names, asFloat, ranked, requester, params, aroundSelf, reply)
    requires forall pid | pid in names :: FitsQString(names[pid])
    ensures ShowsPage(reply, db, names, asFloat, ranked, requester, params, aroundSelf)
  {
    hide Page, RowEntry, EntriesBytes, Writable, Reads, ShowsRow, EntriesAt, U32, Le32, Stands, FirstRow, RowCount,
         WordAt;
    var (page, start) := Page(ranked, requester, WordAt(params, 4), WordAt(params, 8), aroundSelf);
    var me := PageIs(ranked, requester, params, aroundSelf);
    var first, count := FirstRow(params, aroundSelf, me), RowCount(|ranked|, params, aroundSelf, me);
    var es := RowEntries(db, names, asFloat, page, start);
    forall e | e in es ensures Writable(e) {
      var k :| 0 <= k < |es| && es[k] == e;
      RowEntryWritable(db, names, asFloat, page[k], start + k + 1);
    }
    ReplyParts(reply, count, EntriesBytes(es));
    EntriesRoundTrip(reply, 4, es);
    var rs := EntriesAt(reply, 4, count).value.0;
    forall k | 0 <= k < count ensures ShowsRow(rs[k], db, names, asFloat, ranked, first + k + 1) {
      assert Reads(rs[k], es[k]) && es[k] == RowEntry(db, names, asFloat, page[k], start + k + 1);
      RowEntryShows(db, names, asFloat, ranked, first + k + 1, rs[k]);
    }
    assert ShowsRows(reply, db, names, asFloat, ranked, first, count);
  }

  lemma ReplyParts(reply: seq<Byte>, n: Word, body: seq<Byte>)
    requires reply == Le32(n) + body
    ensures |reply| == 4 + |body| && U32(reply, 0) == n && Has(reply, 4, body)
  {
    U32OfLe32([], n, body);
    assert reply == [] + Le32(n) + body == Le32(n) + body + [];
    HasMiddle(Le32(n), body, []);
  }
}
