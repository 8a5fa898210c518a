/**
  A search told from its bytes: the criteria a client spells in its request, the
  settings bytes they are compared with, and the reply it reads.
*/
module Filters {
  import opened Options
  import opened Bytes
  import opened Numbers
  import opened RmcTypes
  import opened SparkGame
  import opened Lobbies
  import opened Browse
  import opened Machine
  import opened Invariants
  import opened Requests
  import Seats

  // What a client looks for; an empty text stands for anything.
  datatype Sought = Sought(ranked: seq<Byte>, level: seq<Byte>, job: seq<Byte>, difficulty: seq<Byte>, mode: seq<Byte>)

  // Texts that survive the lenient reading, which drops every NUL at the end.
  predicate Plain(text: seq<Byte>) { FitsQString(text) && (text != [] ==> text[|text| - 1] != 0) }

  predicate AllPlain(texts: seq<seq<Byte>>) { forall i | 0 <= i < |texts| :: Plain(texts[i]) }

  predicate Spellable(q: Sought) { AllPlain([q.ranked, q.level, q.job, q.difficulty, q.mode]) }

  // The request: ranked, the count 7, seven slots of which the server uses three, the mode, and whatever follows.
  function Spelled(q: Sought, unused: seq<seq<Byte>>, rest: seq<Byte>): seq<Byte>
    requires |unused| == 4
  {
    QString(q.ranked)
    + (Le32(7) + (QStrings([q.level, q.job, q.difficulty] + unused) + (QString(q.mode) + rest)))
  }

  // ---- reading it --------------------------------------------------------------------------------

  lemma ClipHas(b: seq<Byte>, off: nat, chunk: seq<Byte>)
    requires Has(b, off, chunk)
    ensures Clip(b, off, |chunk|) == chunk
  {
  }

  // The lenient slice: what there is of it.
  lemma ClipIs(b: seq<Byte>, off: nat, n: nat)
    ensures |Clip(b, off, n)| == if off >= |b| then 0 else if off + n > |b| then |b| - off else n
    ensures forall i | 0 <= i < |Clip(b, off, n)| :: off + i < |b| && Clip(b, off, n)[i] == b[off + i]
  {
  }

  // The lenient text: without any of the NULs it ends in.
  lemma {:induction false} StripNulsIs(b: seq<Byte>)
    ensures var r := StripNuls(b);
            && |r| <= |b| && r == b[..|r|] && (forall i | |r| <= i < |b| :: b[i] == 0)
            && (r != [] ==> r[|r| - 1] != 0)
  {
    if b != [] && b[|b| - 1] == 0 {
      StripNulsIs(b[..|b| - 1]);
    }
  }

  lemma FromTwo(v: Short)
    ensures FromBytes(Le16(v)) == v
  {
    assert Le16(v)[1..] == [v / 256] && [v / 256][1..] == [];
    assert FromBytes([v / 256]) == v / 256;
  }

  lemma FromFour(v: Word)
    ensures FromBytes(Le32(v)) == v
  {
    var b := Le32(v);
    assert b[1..] == [b[1], b[2], b[3]] && [b[1], b[2], b[3]][1..] == [b[2], b[3]] && [b[2], b[3]][1..] == [b[3]];
    assert [b[3]][1..] == [];
    assert FromBytes([b[3]]) == b[3] as int;
    assert FromBytes([b[2], b[3]]) == b[2] as int + 256 * b[3] as int;
    assert FromBytes([b[1], b[2], b[3]]) == b[1] as int + 256 * (b[2] as int + 256 * b[3] as int);
    Digits(v);
  }

  lemma StripsOne(text: seq<Byte>)
    requires Plain(text)
    ensures StripNuls(text + [0]) == text
  {
    assert (text + [0])[..|text|] == text;
  }

  lemma LooseReads(b: seq<Byte>, off: nat, text: seq<Byte>)
    requires Has(b, off, QString(text)) && Plain(text)
    ensures LooseString(b, off) == (text, off + |QString(text)|)
  {
    hide Clip, FromBytes, StripNuls, Has;
    var n: Short := |text| + 1;
    assert QString(text) == Le16(n) + (text + [0]);
    HasSplit(b, off, Le16(n), text + [0]);
    ClipHas(b, off, Le16(n));
    FromTwo(n);
    ClipHas(b, off + 2, text + [0]);
    StripsOne(text);
  }

  lemma {:induction false} LooseReadsAll(b: seq<Byte>, off: nat, texts: seq<seq<Byte>>)
    requires Has(b, off, QStrings(texts)) && AllPlain(texts)
    ensures LooseStrings(b, off, |texts|) == (texts, off + |QStrings(texts)|)
    decreases texts
  {
    hide LooseString, QString, Has;
    if texts != [] {
      HasSplit(b, off, QString(texts[0]), QStrings(texts[1..]));
      LooseReads(b, off, texts[0]);
      LooseReadsAll(b, off + |QString(texts[0])|, texts[1..]);
      assert [texts[0]] + texts[1..] == texts;
    }
  }

  lemma LooseCount(b: seq<Byte>, off: nat, n: Word)
    requires Has(b, off, Le32(n))
    ensures FromBytes(Clip(b, off, 4)) == n
  {
    hide Le32;
    ClipHas(b, off, Le32(n));
    FromFour(n);
  }

  // Where the parts of a request lie.
  lemma FourParts(c: seq<Byte>, d: seq<Byte>, e: seq<Byte>, f: seq<Byte>, rest: seq<Byte>)
    ensures var b := c + (d + (e + (f + rest)));
            Has(b, 0, c) && Has(b, |c|, d) && Has(b, |c| + |d|, e) && Has(b, |c| + |d| + |e|, f)
  {
    hide Has;
    var t3 := f + rest;
    var t2 := e + t3;
    var t1 := d + t2;
    HasItself(c + t1);
    HasSplit(c + t1, 0, c, t1);
    HasSplit(c + t1, |c|, d, t2);
    HasSplit(c + t1, |c| + |d|, e, t3);
    HasSplit(c + t1, |c| + |d| + |e|, f, rest);
  }

  lemma HasItself(b: seq<Byte>)
    ensures Has(b, 0, b)
  {
  }

  // Each text comes out where it went in.
  lemma SpelledParses(q: Sought, unused: seq<seq<Byte>>, rest: seq<Byte>)
    requires |unused| == 4 && Spellable(q) && AllPlain(unused)
    ensures ParseFilter(Spelled(q, unused, rest))
         == Some(Filter.Filter(q.ranked, q.level, q.job, q.difficulty, q.mode))
  {
    hide Has, LooseString, LooseStrings, QString, QStrings, Le32, FromBytes, Clip, Plain;
    var all := [q.ranked, q.level, q.job, q.difficulty, q.mode];
    assert Plain(all[0]) && Plain(all[1]) && Plain(all[2]) && Plain(all[3]) && Plain(all[4]);
    var b, slots := Spelled(q, unused, rest), [q.level, q.job, q.difficulty] + unused;
    FourParts(QString(q.ranked), Le32(7), QStrings(slots), QString(q.mode), rest);
    var i := |QString(q.ranked)|;
    LooseReads(b, 0, q.ranked);
    LooseCount(b, i, 7);
    LooseReadsAll(b, i + 4, slots);
    LooseReads(b, i + 4 + |QStrings(slots)|, q.mode);
  }

  // A request with any other count has no criteria at all.
  lemma OtherCountsAskNothing(ranked: seq<Byte>, n: Word, tail: seq<Byte>)
    requires Plain(ranked) && n != 7
    ensures Asked(QString(ranked) + (Le32(n) + tail)) == None
  {
    hide Has, LooseString, LooseStrings, QString, Le32, FromBytes, Clip;
    var b := QString(ranked) + (Le32(n) + tail);
    HasItself(b);
    HasSplit(b, 0, QString(ranked), Le32(n) + tail);
    LooseReads(b, 0, ranked);
    HasSplit(b, |QString(ranked)|, Le32(n), tail);
    LooseCount(b, |QString(ranked)|, n);
  }

  // ---- the settings a lobby is judged by --------------------------------------------------------

  predicate HasSettings(raw: seq<Byte>) { |raw| >= 0x36 && 0x36 + U16(raw, 0x34) + 0x40 <= |raw| }

  // Where they start: behind the display name.
  function SettingsAt(raw: seq<Byte>): nat
    requires HasSettings(raw)
  {
    0x36 + U16(raw, 0x34)
  }

  predicate Fits(text: seq<Byte>, value: int, toInt: seq<Byte> -> Option<int>) {
    text == [] || toInt(text) == Some(value)
  }

  predicate RankedFits(raw: seq<Byte>, ranked: seq<Byte>)
    requires HasSettings(raw)
  {
    ranked == [] || raw[SettingsAt(raw)] == (if ranked == [49] then 1 else 0)
  }

  // The other criteria in the order they are looked at.
  function Criteria(raw: seq<Byte>, q: Sought): (r: seq<(seq<Byte>, int)>)
    requires HasSettings(raw)
    ensures |r| == 4
  {
    var at := SettingsAt(raw);
    [(q.mode, raw[at + 0x01]), (q.level, U32(raw, at + 0x21)), (q.job, U32(raw, at + 0x25)),
     (q.difficulty, raw[at + 0x29])]
  }

  predicate Meets(raw: seq<Byte>, q: Sought, toInt: seq<Byte> -> Option<int>)
    requires HasSettings(raw)
  {
    RankedFits(raw, q.ranked)
    && forall k | 0 <= k < 4 :: Fits(Criteria(raw, q)[k].0, Criteria(raw, q)[k].1, toInt)
  }

  // Looking at this lobby raises: everything before some text fits, and that text is not a number.
  predicate Chokes(raw: seq<Byte>, q: Sought, toInt: seq<Byte> -> Option<int>)
    requires HasSettings(raw)
  {
    RankedFits(raw, q.ranked)
    && exists k :: 0 <= k < 4 && Criteria(raw, q)[k].0 != [] && toInt(Criteria(raw, q)[k].0) == None
                   && forall j | 0 <= j < k :: Fits(Criteria(raw, q)[j].0, Criteria(raw, q)[j].1, toInt)
  }

  // A lobby anybody may be shown: not closed, with a public slot left.
  predicate OnOffer(l: Lobby) { !l.closed && |Uninvited(l)| < SlotsOffered(l.raw) }

  predicate Shown(l: Lobby, q: Sought, toInt: seq<Byte> -> Option<int>) {
    OnOffer(l) && (HasSettings(l.raw) ==> Meets(l.raw, q, toInt))
  }

  function Wanted(q: Sought): Filter { Filter.Filter(q.ranked, q.level, q.job, q.difficulty, q.mode) }

  lemma MatchIff(raw: seq<Byte>, q: Sought, toInt: seq<Byte> -> Option<int>)
    requires HasSettings(raw)
    ensures MatchesFilter(raw, Wanted(q), toInt) == Some(true) <==> Meets(raw, q, toInt)
    ensures MatchesFilter(raw, Wanted(q), toInt) == None <==> Chokes(raw, q, toInt)
  {
    hide U32, U16;
    var c := Criteria(raw, q);
    assert c[0].0 == q.mode && c[1].0 == q.level && c[2].0 == q.job && c[3].0 == q.difficulty;
    assert Meets(raw, q, toInt) <==>
             RankedFits(raw, q.ranked) && Fits(c[0].0, c[0].1, toInt) && Fits(c[1].0, c[1].1, toInt)
             && Fits(c[2].0, c[2].1, toInt) && Fits(c[3].0, c[3].1, toInt);
  }

  lemma OpenIff(l: Listing)
    requires Distinct(l.lobby.participants)
    ensures Browse.Open(l) <==> OnOffer(l.lobby)
  {
    hide SlotsOffered;
    SlotsAreOffered(l.lobby.raw);
    JoinersAreUninvited(l.lobby.participants, l.lobby.ownerPid, l.lobby.invited);
  }

  lemma PassesIff(l: Listing, q: Sought, params: seq<Byte>, toInt: seq<Byte> -> Option<int>)
    requires Distinct(l.lobby.participants) && params != [] && ParseFilter(params) == Some(Wanted(q))
    ensures Passes(l, Asked(params), toInt) <==> Shown(l.lobby, q, toInt)
  {
    hide Browse.Open, OnOffer, MatchesFilter, Criteria, ParseFilter;
    OpenIff(l);
    if HasSettings(l.lobby.raw) {
      MatchIff(l.lobby.raw, q, toInt);
    } else {
      assert MatchesFilter(l.lobby.raw, Wanted(q), toInt) == Some(true) by { UnreadablePass(l.lobby.raw, q, toInt); }
    }
    if Asked(params).None? && HasSettings(l.lobby.raw) {
      NothingSought(l.lobby.raw, q, toInt);
    }
  }

  lemma UnreadablePass(raw: seq<Byte>, q: Sought, toInt: seq<Byte> -> Option<int>)
    requires !HasSettings(raw)
    ensures MatchesFilter(raw, Wanted(q), toInt) == Some(true)
  {
  }

  lemma NothingSought(raw: seq<Byte>, q: Sought, toInt: seq<Byte> -> Option<int>)
    requires HasSettings(raw) && q == Sought([], [], [], [], [])
    ensures Meets(raw, q, toInt) && !Chokes(raw, q, toInt)
  {
  }

  // The search raises exactly if it comes to a lobby on offer that it chokes on.
  lemma {:induction false} RaisesIff(ls: seq<Listing>, q: Sought, params: seq<Byte>, toInt: seq<Byte> -> Option<int>)
    requires params != [] && ParseFilter(params) == Some(Wanted(q))
    requires forall i | 0 <= i < |ls| :: Distinct(ls[i].lobby.participants)
    ensures Listed(ls, Asked(params), toInt).None?
       <==> exists i :: 0 <= i < |ls| && OnOffer(ls[i].lobby) && HasSettings(ls[i].lobby.raw)
                        && Chokes(ls[i].lobby.raw, q, toInt)
  {
    hide Browse.Open, OnOffer, MatchesFilter, Chokes, ParseFilter, Distinct, HasSettings;
    if ls != [] {
      var n := |ls| - 1;
      RaisesIff(ls[..n], q, params, toInt);
      assert forall i | 0 <= i < n :: ls[..n][i] == ls[i];
      OpenIff(ls[n]);
      LastRaises(ls[n].lobby.raw, q, params, toInt);
    }
  }

  lemma LastRaises(raw: seq<Byte>, q: Sought, params: seq<Byte>, toInt: seq<Byte> -> Option<int>)
    requires params != [] && ParseFilter(params) == Some(Wanted(q))
    ensures HasSettings(raw) && Chokes(raw, q, toInt)
       <==> Asked(params).Some? && MatchesFilter(raw, Asked(params).value, toInt).None?
  {
    hide MatchesFilter, Chokes, ParseFilter;
    if HasSettings(raw) {
      MatchIff(raw, q, toInt);
      if Asked(params).None? {
        NothingSought(raw, q, toInt);
      }
    } else {
      UnreadablePass(raw, q, toInt);
    }
  }

  // ---- what the client reads ----------------------------------------------------------------------

  predicate Between(x: int, from: int) { from <= x < from + 4 }

  // The struct of a lobby as a client gets it: the host's own up to the last byte but one of its settings, with id,
  // owner and a number of players written in.
  predicate TellsCount(s: seq<Byte>, l: Lobby, count: nat) {
    && HasSettings(l.raw) && |s| == SettingsAt(l.raw) + 0x3f
    && U32(s, 0x14) == l.id && U32(s, 0x18) == l.ownerPid && U32(s, SettingsAt(l.raw) + 0x11) == count
    && forall x | 0 <= x < |s| :: Between(x, 0x14) || Between(x, 0x18) || Between(x, SettingsAt(l.raw) + 0x11)
                                  || s[x] == l.raw[x]
  }

  // A search counts the players who joined the host.
  predicate Tells(s: seq<Byte>, l: Lobby) {
    TellsCount(s, l, if l.participants == [] then 0 else |l.participants| - 1)
  }

  lemma OwnStructTells(l: Listing)
    requires Presentable(l) && |l.lobby.participants| < 0x1_0000_0000
    ensures Tells(OwnStruct(l), l.lobby)
  {
    hide U32, U16;
    OverlayFields(l.lobby.raw, l.lobby.id, l.lobby.ownerPid, JoinerCount(l.lobby));
  }

  // From the request's texts to the reply's lobbies: for any lobbies in registry order, if the search does not come
  // to one it chokes on, the client reads back, in that order, exactly the lobbies on offer whose settings meet
  // every criterion it spelled, each with its host's URLs at the same place under the same id.
  lemma SearchFinds(ls: seq<Listing>, q: Sought, unused: seq<seq<Byte>>, rest: seq<Byte>,
                    toInt: seq<Byte> -> Option<int>) returns (at: seq<nat>)
    requires |unused| == 4 && Spellable(q) && AllPlain(unused)
    requires Countable(ls) && forall i | 0 <= i < |ls| :: Distinct(ls[i].lobby.participants)
    requires forall i | 0 <= i < |ls| && OnOffer(ls[i].lobby) && HasSettings(ls[i].lobby.raw) ::
               !Chokes(ls[i].lobby.raw, q, toInt)
    requires forall i | 0 <= i < |ls| && Shown(ls[i].lobby, q, toInt) :: Presentable(ls[i])
    ensures Rising(at) && forall i | 0 <= i < |ls| :: i in at <==> Shown(ls[i].lobby, q, toInt)
    ensures var found := Listed(ls, Asked(Spelled(q, unused, rest)), toInt);
            && found.Some? && Countable(found.value) && Reply(found.value).Some?
            && ParseReply(Reply(found.value).value).Some?
            && var (structs, groups) := ParseReply(Reply(found.value).value).value;
               && |structs| == |groups| == |at|
               && forall k | 0 <= k < |at| ::
                    && at[k] < |ls| && Tells(structs[k], ls[at[k]].lobby)
                    && groups[k] == ParsedGroup(ls[at[k]].lobby.id, ls[at[k]].urls)
  {
    hide Listed, Reply, ParseReply, ParseFilter, Spelled, Passes, Shown, Chokes, OnOffer, HasSettings, OwnStruct,
         Tells, Distinct;
    var params := Spelled(q, unused, rest);
    SpelledParses(q, unused, rest);
    assert params != [] by { SpelledIsThere(q, unused, rest); }
    RaisesIff(ls, q, params, toInt);
    forall i | 0 <= i < |ls| ensures Passes(ls[i], Asked(params), toInt) <==> Shown(ls[i].lobby, q, toInt) {
      PassesIff(ls[i], q, params, toInt);
    }
    var order := ListedOrder(ls, Asked(params), toInt);
    PresentableList(ls, Listed(ls, Asked(params), toInt).value, order);
    at := SearchShows(ls, params, toInt);
    forall k | 0 <= k < |at| ensures at[k] < |ls| && Tells(OwnStruct(ls[at[k]]), ls[at[k]].lobby) {
      OwnStructTells(ls[at[k]]);
    }
  }

  lemma SpelledIsThere(q: Sought, unused: seq<seq<Byte>>, rest: seq<Byte>)
    requires |unused| == 4
    ensures Spelled(q, unused, rest) != []
  {
  }

  lemma PresentableList(ls: seq<Listing>, found: seq<Listing>, at: seq<nat>)
    requires Countable(ls) && |found| == |at| <= |ls|
    requires forall k | 0 <= k < |at| :: at[k] < |ls| && found[k] == ls[at[k]] && Presentable(ls[at[k]])
    ensures AllPresentable(found)
  {
    hide Presentable;
  }

  // ---- the other two places a lobby is shown -------------------------------------------------------

  // What QuickMatch looks at: not the caller's own, its host with URLs, on offer, of the wanted kind.
  predicate QuickOffer(w: World, l: Lobby, pid: Pid, ranked: Byte) {
    && l.ownerPid != pid
    && l.hostConn.Some? && l.hostConn.value < |w.conns| && w.conns[l.hostConn.value].urls != []
    && OnOffer(l) && (HasSettings(l.raw) ==> l.raw[SettingsAt(l.raw)] == ranked)
  }

  lemma EligibleIff(w: World, l: Lobby, pid: Pid, ranked: Byte)
    requires Distinct(l.participants)
    ensures Seats.Eligible(w, l, pid, ranked) <==> QuickOffer(w, l, pid, ranked)
  {
    hide SlotsOffered, PublicSlots, Joiners;
    SlotsAreOffered(l.raw);
    JoinersAreUninvited(l.participants, l.ownerPid, l.invited);
  }

  // In every reachable state the lobby QuickMatch chooses is the oldest it may offer, and it chooses none only if
  // there is none.
  lemma QuickMatchOffers(w: World, pid: Pid, ranked: Byte, g: Gid)
    requires Inv(w)
    ensures Seats.Oldest(w, pid, ranked, g)
       <==> g in w.reg.byId && QuickOffer(w, w.reg.byId[g], pid, ranked)
            && forall h | h in w.reg.byId && QuickOffer(w, w.reg.byId[h], pid, ranked) :: g <= h
  {
    hide Seats.Eligible, QuickOffer, Consistent, TableOk, HostsOk, TimersOk;
    forall h | h in w.reg.byId
      ensures Seats.Eligible(w, w.reg.byId[h], pid, ranked) <==> QuickOffer(w, w.reg.byId[h], pid, ranked)
    {
      assert LobbyOk(w.reg.byId[h]);
      EligibleIff(w, w.reg.byId[h], pid, ranked);
    }
  }

  // The struct inside a join's reply counts everybody.
  lemma EmbedTells(l: Lobby)
    requires HasSettings(l.raw) && l.id < 0x1_0000_0000 && |l.participants| < 0x1_0000_0000
    ensures Rendered(l, |l.participants|).Some? && TellsCount(Rendered(l, |l.participants|).value, l, |l.participants|)
  {
    hide U32, U16;
    OverlayFields(l.raw, l.id, l.ownerPid, |l.participants|);
  }

  // A host without registered URLs is shown with whatever follows the settings in its blob.
  lemma TailGroup(l: Listing, header: seq<Byte>, name: seq<Byte>, settings: seq<Byte>, tail: seq<Byte>)
    requires l.urls == [] && l.lobby.id < 0x1_0000_0000 && |header| == 0x34 && |name| < 0x1_0000 && |settings| == 0x40
    requires l.lobby.raw == header + (Le16(|name|) + (name + (settings + tail)))
    ensures UrlGroup(l) == Some(Le32(l.lobby.id) + tail)
  {
    var raw := l.lobby.raw;
    HasItself(raw);
    HasSplit(raw, 0, header, Le16(|name|) + (name + (settings + tail)));
    HasSplit(raw, 0x34, Le16(|name|), name + (settings + tail));
    HasLe16(raw, 0x34, |name|);
    assert raw[0x36 + |name| + 0x40..] == tail;
  }

  // With registered URLs the group cannot be written exactly if one of them, with its NUL, or the id is too long.
  lemma GroupRaisesIff(l: Listing)
    requires l.urls != [] && |l.urls| < 0x1_0000_0000
    ensures UrlGroup(l).None?
       <==> l.lobby.id >= 0x1_0000_0000 || exists u :: u in l.urls && |u| + 1 >= 0x1_0000
  {
  }

  // A blob without readable settings is shown whole, with id and owner written in if they fit.
  lemma ShortStructs(l: Lobby, count: Word)
    requires !HasSettings(l.raw)
    ensures var r := Rendered(l, count);
            if |l.raw| < 0x1c then r == Some(l.raw)
            else if l.id >= 0x1_0000_0000 then r == None
            else
              && r.Some? && |r.value| == |l.raw| && U32(r.value, 0x14) == l.id && U32(r.value, 0x18) == l.ownerPid
              && forall x | 0 <= x < |l.raw| && !Between(x, 0x14) && !Between(x, 0x18) :: r.value[x] == l.raw[x]
  {
    hide U32;
    if |l.raw| >= 0x1c && l.id < 0x1_0000_0000 {
      var s := Overlay(l.raw, l.id, l.ownerPid, count);
      assert s[0x14..0x18] == Le32(l.id) && s[0x18..0x1c] == Le32(l.ownerPid);
      HasLe32(s, 0x14, l.id);
      HasLe32(s, 0x18, l.ownerPid);
    }
  }
}
