/**
  The lobby browser (state/gatherings.py render methods, SearchGatherings in
  protocols/game.py): blobs patched in place, the two-section reply, and the
  client's way back from the reply to the lobbies. `toInt` stands for Python's
  `int(...)` on filter text: any partial function.
*/
module Browse {
  import opened Options
  import opened Bytes
  import opened Numbers
  import opened RmcTypes
  import opened SparkGame
  import opened Lobbies

  // A lobby as listed, with the station URLs its host has registered.
  datatype Listing = Listing(lobby: Lobby, urls: seq<seq<Byte>>)

  const JOINERS: nat := PARTICIPANT_COUNT_OFFSET

  // ---- patching a blob -----------------------------------------------------------

  predicate InWindow(i: int, at: int) { at <= i < at + 4 }

  // Byte i of the rendered struct: one of three four-byte windows, or the host's own byte.
  function OverlayByte(raw: seq<Byte>, gid: Word, owner: Word, count: Word, i: nat): Byte
    requires i < |raw|
  {
    if InWindow(i, GATHERING_ID_OFFSET) then Le32(gid)[i - GATHERING_ID_OFFSET]
    else if InWindow(i, OWNER_PID_OFFSET) then Le32(owner)[i - OWNER_PID_OFFSET]
    else if Readable(raw) && InWindow(i, SettingsStart(raw) + JOINERS) then
      Le32(count)[i - SettingsStart(raw) - JOINERS]
    else raw[i]
  }

  // The struct ends one byte before the settings block does; a blob without readable settings stays whole.
  function OverlaySize(raw: seq<Byte>): (n: nat)
    ensures n <= |raw|
  {
    if Readable(raw) then SettingsStart(raw) + SETTINGS_SIZE - 1 else |raw|
  }

  function Overlay(raw: seq<Byte>, gid: Word, owner: Word, count: Word): (r: seq<Byte>)
    ensures |r| == OverlaySize(raw)
    ensures forall i | 0 <= i < |r| :: r[i] == OverlayByte(raw, gid, owner, count, i)
  {
    seq(OverlaySize(raw), i requires 0 <= i < OverlaySize(raw) => OverlayByte(raw, gid, owner, count, i))
  }

  // What a render returns; None where the id does not fit its four bytes and the call raises.
  function Rendered(l: Lobby, count: Word): Option<seq<Byte>> {
    if |l.raw| < OWNER_PID_OFFSET + 4 then Some(l.raw)
    else if l.id >= 0x1_0000_0000 then None
    else Some(Overlay(l.raw, l.id, l.ownerPid, count))
  }

  method PutWord(buf: array<Byte>, at: nat, v: Word)
    requires at + 4 <= buf.Length
    modifies buf
    ensures forall i | 0 <= i < buf.Length :: buf[i] == if InWindow(i, at) then Le32(v)[i - at] else old(buf[i])
  {
    var bytes := Le32(v);
    for k := 0 to 4
      invariant forall i | 0 <= i < buf.Length :: buf[i] == if at <= i < at + k then bytes[i - at] else old(buf[i])
    {
      buf[at + k] := bytes[k];
    }
  }

  // The common part of the two renders: copy, patch in place, cut.
  method Render(l: Lobby, count: Word) returns (r: Option<seq<Byte>>)
    ensures r == Rendered(l, count)
  {
    if |l.raw| < OWNER_PID_OFFSET + 4 { return Some(l.raw); }
    if l.id >= 0x1_0000_0000 { return None; }
    var buf := new Byte[|l.raw|](i requires 0 <= i < |l.raw| => l.raw[i]);
    PutWord(buf, GATHERING_ID_OFFSET, l.id);
    PutWord(buf, OWNER_PID_OFFSET, l.ownerPid);
    ghost var whole := Overlay(l.raw, l.id, l.ownerPid, count);
    if buf.Length < DISPLAY_OFFSET + 2 {
      assert buf[..] == whole;
      return Some(buf[..]);
    }
    var displayLen: nat := U16(buf[..], DISPLAY_OFFSET);
    var start := DISPLAY_OFFSET + 2 + displayLen;
    assert start == SettingsStart(l.raw);
    if buf.Length < start + SETTINGS_SIZE {
      assert buf[..] == whole;
      return Some(buf[..]);
    }
    PutWord(buf, start + JOINERS, count);
    assert buf[..start + SETTINGS_SIZE - 1] == whole;
    r := Some(buf[..start + SETTINGS_SIZE - 1]);
  }

  // `render_settings_for_browse`: the count is of joiners, the host not included.
  method RenderForBrowse(l: Lobby) returns (r: Option<seq<Byte>>)
    requires |l.participants| < 0x1_0000_0000
    ensures r == Rendered(l, JoinerCount(l))
  {
    r := Render(l, if |l.participants| > 0 then |l.participants| - 1 else 0);
  }

  // `render_join_embed`: the count is of everybody.
  method RenderJoinEmbed(l: Lobby) returns (r: Option<seq<Byte>>)
    requires |l.participants| < 0x1_0000_0000
    ensures r == Rendered(l, |l.participants|)
  {
    r := Render(l, |l.participants|);
  }

  function JoinerCount(l: Lobby): Word
    requires |l.participants| < 0x1_0000_0000
  {
    if l.participants == [] then 0 else |l.participants| - 1
  }

  // The three windows are disjoint, each reads back its field, and the length word of the display name survives.
  lemma OverlayFields(raw: seq<Byte>, gid: Word, owner: Word, count: Word)
    requires Readable(raw)
    ensures var r, start := Overlay(raw, gid, owner, count), SettingsStart(raw);
            && GATHERING_ID_OFFSET + 4 <= OWNER_PID_OFFSET && OWNER_PID_OFFSET + 4 <= start + JOINERS
            && start + JOINERS + 4 <= |r| == start + 63
            && U32(r, GATHERING_ID_OFFSET) == gid && U32(r, OWNER_PID_OFFSET) == owner
            && U32(r, start + JOINERS) == count
            && U16(r, DISPLAY_OFFSET) == U16(raw, DISPLAY_OFFSET)
  {
    var r, start := Overlay(raw, gid, owner, count), SettingsStart(raw);
    assert r[GATHERING_ID_OFFSET..GATHERING_ID_OFFSET + 4] == Le32(gid);
    assert r[OWNER_PID_OFFSET..OWNER_PID_OFFSET + 4] == Le32(owner);
    assert r[start + JOINERS..start + JOINERS + 4] == Le32(count);
    HasLe32(r, GATHERING_ID_OFFSET, gid);
    HasLe32(r, OWNER_PID_OFFSET, owner);
    HasLe32(r, start + JOINERS, count);
  }

  // ---- the filter -------------------------------------------------------------------

  datatype Filter = Filter(ranked: seq<Byte>, levelId: seq<Byte>, jobId: seq<Byte>, difficulty: seq<Byte>,
                           gameMode: seq<Byte>)

  // What the filter looks at in a settings block.
  datatype Fields = Fields(ranked: Byte, gameMode: Byte, levelId: Word, jobId: Word, difficulty: Byte)

  const FIELDS_END: nat := 0x2a

  function FieldsAt(b: seq<Byte>, start: nat): Fields
    requires start + FIELDS_END <= |b|
  {
    Fields(b[start + RANKED_OFFSET], b[start + 0x01], U32(b, start + 0x21), U32(b, start + 0x25), b[start + 0x29])
  }

  // One criterion: empty text matches anything, text that is not a number raises.
  function Wants(text: seq<Byte>, toInt: seq<Byte> -> Option<int>, field: int): Option<bool> {
    if text == [] then Some(true) else match toInt(text) case None => None case Some(v) => Some(field == v)
  }

  // The criteria in order; the first mismatch decides, so later text is not even converted.
  function Satisfies(s: Fields, f: Filter, toInt: seq<Byte> -> Option<int>): Option<bool> {
    if f.ranked != [] && s.ranked != (if f.ranked == [49] then 1 else 0) then Some(false)
    else if Wants(f.gameMode, toInt, s.gameMode) != Some(true) then Wants(f.gameMode, toInt, s.gameMode)
    else if Wants(f.levelId, toInt, s.levelId) != Some(true) then Wants(f.levelId, toInt, s.levelId)
    else if Wants(f.jobId, toInt, s.jobId) != Some(true) then Wants(f.jobId, toInt, s.jobId)
    else Wants(f.difficulty, toInt, s.difficulty)
  }

  // `_gathering_matches_filter`: unreadable settings pass.
  function MatchesFilter(raw: seq<Byte>, f: Filter, toInt: seq<Byte> -> Option<int>): Option<bool> {
    if Readable(raw) then Satisfies(FieldsAt(raw, SettingsStart(raw)), f, toInt) else Some(true)
  }

  // Python's lenient reading: a slice past the end is short, not an error.
  function Clip(b: seq<Byte>, from: nat, n: nat): seq<Byte> {
    if from >= |b| then [] else if from + n > |b| then b[from..] else b[from..from + n]
  }

  function FromBytes(b: seq<Byte>): nat {
    if b == [] then 0 else b[0] + 256 * FromBytes(b[1..])
  }

  function StripNuls(b: seq<Byte>): seq<Byte> {
    if b != [] && b[|b| - 1] == 0 then StripNuls(b[..|b| - 1]) else b
  }

  // The local `_qstr` and `_u32`: value and offset after it.
  function LooseString(b: seq<Byte>, i: nat): (seq<Byte>, nat) {
    var n := FromBytes(Clip(b, i, 2));
    (StripNuls(Clip(b, i + 2, n)), i + 2 + n)
  }

  function LooseStrings(b: seq<Byte>, i: nat, n: nat): (r: (seq<seq<Byte>>, nat))
    ensures |r.0| == n
    decreases n
  {
    if n == 0 then ([], i)
    else
      var (first, next) := LooseString(b, i);
      var (rest, end) := LooseStrings(b, next, n - 1);
      ([first] + rest, end)
  }

  // `_parse_filter_params`: None exactly when the slot count is not 7.
  function ParseFilter(blob: seq<Byte>): Option<Filter> {
    var (ranked, i) := LooseString(blob, 0);
    if FromBytes(Clip(blob, i, 4)) != 7 then None
    else
      var (slots, j) := LooseStrings(blob, i + 4, 7);
      Some(Filter(ranked, slots[0], slots[1], slots[2], LooseString(blob, j).0))
  }

  // ---- the reply --------------------------------------------------------------------

  // `render_url_group_for_browse`. None where a URL or the id is too long for its prefix and the call raises.
  function UrlGroup(l: Listing): Option<seq<Byte>>
    requires |l.urls| < 0x1_0000_0000
  {
    if l.urls != [] then
      if l.lobby.id < 0x1_0000_0000 && forall u | u in l.urls :: FitsQString(u)
      then Some(Le32(l.lobby.id) + Le32(|l.urls|) + QStrings(l.urls)) else None
    else if !Readable(l.lobby.raw) then Some([])
    else if l.lobby.id >= 0x1_0000_0000 then None
    else Some(Le32(l.lobby.id) + l.lobby.raw[SettingsStart(l.lobby.raw) + SETTINGS_SIZE..])
  }

  lemma {:induction false} QStringsSnoc(texts: seq<seq<Byte>>, t: seq<Byte>)
    ensures QStrings(texts + [t]) == QStrings(texts) + QString(t)
  {
    hide QString;
    if texts == [] {
      assert QStrings([t]) == QString(t) + [];
    } else {
      QStringsSnoc(texts[1..], t);
      assert (texts + [t])[1..] == texts[1..] + [t];
      assert QString(texts[0]) + (QStrings(texts[1..]) + QString(t))
          == QString(texts[0]) + QStrings(texts[1..]) + QString(t);
    }
  }

  // The URLs as qStrings, one by one.
  method WriteUrls(out: ByteBuffer, urls: seq<seq<Byte>>) returns (ok: bool)
    modifies out
    ensures ok <==> forall u | u in urls :: FitsQString(u)
    ensures ok ==> out.data == old(out.data) + QStrings(urls)
  {
    ghost var start := out.data;
    for k := 0 to |urls|
      invariant out.data == start + QStrings(urls[..k])
      invariant forall u | u in urls[..k] :: FitsQString(u)
    {
      var url := urls[k] + [0];
      if |url| >= 0x1_0000 {
        assert !FitsQString(urls[k]) && urls[k] in urls;
        return false;
      }
      out.WRaw(Le16(|url|));
      out.WRaw(url);
      QStringsSnoc(urls[..k], urls[k]);
      assert urls[..k + 1] == urls[..k] + [urls[k]];
      assert QString(urls[k]) == Le16(|url|) + url;
    }
    assert urls[..|urls|] == urls;
    ok := true;
  }

  method RenderUrlGroup(l: Listing) returns (r: Option<seq<Byte>>)
    requires |l.urls| < 0x1_0000_0000
    ensures r == UrlGroup(l)
  {
    hide QStrings, Le32, U16;
    if l.urls != [] {
      r := RenderRegistered(l);
      return;
    }
    var raw := l.lobby.raw;
    if |raw| < DISPLAY_OFFSET + 2 { return Some([]); }
    var end := DISPLAY_OFFSET + 2 + U16(raw, DISPLAY_OFFSET) + SETTINGS_SIZE;
    if |raw| < end { return Some([]); }
    if l.lobby.id >= 0x1_0000_0000 { return None; }
    r := Some(Le32(l.lobby.id) + raw[end..]);
  }

  // The group of a host that has registered URLs.
  method RenderRegistered(l: Listing) returns (r: Option<seq<Byte>>)
    requires |l.urls| < 0x1_0000_0000 && l.urls != []
    ensures r == UrlGroup(l)
  {
    hide QStrings, Le32, U16;
    if l.lobby.id >= 0x1_0000_0000 { return None; }
    var out := new ByteBuffer();
    out.WU32(l.lobby.id);
    out.WU32(|l.urls|);
    var ok := WriteUrls(out, l.urls);
    assert [] + Le32(l.lobby.id) == Le32(l.lobby.id);
    r := if ok then Some(out.data) else None;
  }

  // Bytes one after the other, unless one of them raises.
  function Join(a: Option<seq<Byte>>, b: Option<seq<Byte>>): Option<seq<Byte>> {
    if a.Some? && b.Some? then Some(a.value + b.value) else None
  }

  lemma JoinAssociates(a: Option<seq<Byte>>, b: Option<seq<Byte>>, c: Option<seq<Byte>>)
    ensures Join(a, Join(b, c)) == Join(Join(a, b), c)
    ensures Join(a, Some([])) == a && Join(Some([]), a) == a
  {
    if a.Some? {
      assert a.value + [] == a.value && [] + a.value == a.value;
      if b.Some? && c.Some? {
        assert a.value + (b.value + c.value) == a.value + b.value + c.value;
      }
    }
  }

  // The structs, then the url groups, of all listed lobbies.
  function Structs(ls: seq<Listing>): Option<seq<Byte>>
    requires forall l | l in ls :: |l.lobby.participants| < 0x1_0000_0000
  {
    if ls == [] then Some([]) else Join(Rendered(ls[0].lobby, JoinerCount(ls[0].lobby)), Structs(ls[1..]))
  }

  function Groups(ls: seq<Listing>): Option<seq<Byte>>
    requires forall l | l in ls :: |l.urls| < 0x1_0000_0000
  {
    if ls == [] then Some([]) else Join(UrlGroup(ls[0]), Groups(ls[1..]))
  }

  // Counts that fit their 32-bit prefixes.
  predicate Countable(ls: seq<Listing>) {
    |ls| < 0x1_0000_0000 && forall l | l in ls :: |l.lobby.participants| < 0x1_0000_0000 && |l.urls| < 0x1_0000_0000
  }

  function Reply(ls: seq<Listing>): Option<seq<Byte>>
    requires Countable(ls)
  {
    match (Structs(ls), Groups(ls))
    case (Some(s), Some(g)) => Some(Le32(|ls|) + (s + (Le32(|ls|) + g)))
    case _ => None
  }

  // ---- which lobbies are listed ---------------------------------------------------------

  predicate Open(l: Listing) { PublicRemaining(l.lobby) > 0 && !l.lobby.closed }

  // The listed lobbies, registry order kept; None where the filter raises.
  function Listed(ls: seq<Listing>, f: Option<Filter>, toInt: seq<Byte> -> Option<int>): (r: Option<seq<Listing>>)
    ensures r.Some? ==> |r.value| <= |ls| && forall l | l in r.value :: l in ls
  {
    if ls == [] then Some([])
    else
      var n := |ls| - 1;
      assert ls == ls[..n] + [ls[n]];
      match Listed(ls[..n], f, toInt)
      case None => None
      case Some(before) =>
        if !Open(ls[n]) then Some(before)
        else if f.None? then Some(before + [ls[n]])
        else match MatchesFilter(ls[n].lobby.raw, f.value, toInt)
          case None => None
          case Some(pass) => Some(if pass then before + [ls[n]] else before)
  }

  predicate Anything(f: Filter) {
    f.ranked == [] && f.levelId == [] && f.jobId == [] && f.difficulty == [] && f.gameMode == []
  }

  // The criteria a request asks for, if it asks for any.
  function Asked(params: seq<Byte>): Option<Filter> {
    if params == [] || ParseFilter(params).None? || Anything(ParseFilter(params).value) then None
    else ParseFilter(params)
  }

  // `search_gatherings`, over the lobbies in registry order.
  method SearchGatherings(ls: seq<Listing>, params: seq<Byte>, toInt: seq<Byte> -> Option<int>)
    returns (reply: Option<seq<Byte>>)
    requires Countable(ls)
    ensures reply == match Listed(ls, Asked(params), toInt) case None => None case Some(active) => Reply(active)
  {
    var f := Asked(params);
    var active := [];
    for i := 0 to |ls|
      invariant Listed(ls[..i], f, toInt) == Some(active)
    {
      ghost var before := ls[..i + 1];
      assert before[..|before| - 1] == ls[..i];
      if Open(ls[i]) {
        var pass := Some(true);
        if f.Some? { pass := MatchesFilter(ls[i].lobby.raw, f.value, toInt); }
        if pass.None? {
          ListedRaises(ls, i + 1, f, toInt);
          return None;
        }
        if pass.value { active := active + [ls[i]]; }
      }
    }
    assert ls[..|ls|] == ls;
    reply := BuildReply(active);
  }

  lemma {:induction false} ListedRaises(ls: seq<Listing>, k: nat, f: Option<Filter>, toInt: seq<Byte> -> Option<int>)
    requires k <= |ls| && Listed(ls[..k], f, toInt).None?
    ensures Listed(ls, f, toInt).None?
    decreases |ls|
  {
    if k == |ls| {
      assert ls[..k] == ls;
    } else {
      assert ls[..|ls| - 1][..k] == ls[..k];
      ListedRaises(ls[..|ls| - 1], k, f, toInt);
    }
  }

  lemma {:induction false} StructsSnoc(ls: seq<Listing>, l: Listing)
    requires Countable(ls + [l])
    ensures forall x | x in ls :: x in ls + [l]
    ensures l in ls + [l]
    ensures Structs(ls + [l]) == Join(Structs(ls), Rendered(l.lobby, JoinerCount(l.lobby)))
    ensures Groups(ls + [l]) == Join(Groups(ls), UrlGroup(l))
  {
    hide Rendered, UrlGroup, JoinerCount, Join;
    var struct, group := Rendered(l.lobby, JoinerCount(l.lobby)), UrlGroup(l);
    if ls == [] {
      assert [l][1..] == [] && [] + [l] == [l];
      JoinAssociates(struct, None, None);
      JoinAssociates(group, None, None);
    } else {
      assert (ls + [l])[1..] == ls[1..] + [l];
      assert Countable(ls[1..] + [l]);
      StructsSnoc(ls[1..], l);
      JoinAssociates(Rendered(ls[0].lobby, JoinerCount(ls[0].lobby)), Structs(ls[1..]), struct);
      JoinAssociates(UrlGroup(ls[0]), Groups(ls[1..]), group);
    }
  }

  lemma {:induction false} NoneStays(ls: seq<Listing>, k: nat)
    requires Countable(ls) && k <= |ls|
    ensures Countable(ls[..k])
    ensures Structs(ls[..k]).None? ==> Structs(ls).None?
    ensures Groups(ls[..k]).None? ==> Groups(ls).None?
    decreases |ls|
  {
    hide Rendered, UrlGroup, JoinerCount;
    if k == |ls| {
      assert ls[..k] == ls;
    } else {
      var init := ls[..|ls| - 1];
      assert ls == init + [ls[|ls| - 1]] && init[..k] == ls[..k];
      NoneStays(init, k);
      StructsSnoc(init, ls[|ls| - 1]);
    }
  }

  lemma NoStructs(ls: seq<Listing>)
    ensures Countable(ls[..0]) && Structs(ls[..0]) == Some([])
  {
  }

  // One more struct at the end, or the whole list cannot be written.
  lemma NextStruct(ls: seq<Listing>, i: nat)
    requires Countable(ls) && i < |ls| && Countable(ls[..i]) && Structs(ls[..i]).Some?
    ensures Countable(ls[..i + 1]) && |ls[i].lobby.participants| < 0x1_0000_0000
    ensures match Rendered(ls[i].lobby, JoinerCount(ls[i].lobby))
            case None => Structs(ls).None?
            case Some(s) => Structs(ls[..i + 1]) == Some(Structs(ls[..i]).value + s)
  {
    hide Rendered, JoinerCount, Structs;
    assert ls[i] in ls;
    NoneStays(ls, i + 1);
    assert ls[..i + 1] == ls[..i] + [ls[i]];
    StructsSnoc(ls[..i], ls[i]);
  }

  method WriteStructs(out: ByteBuffer, active: seq<Listing>) returns (ok: bool)
    requires Countable(active)
    modifies out
    ensures ok <==> Structs(active).Some?
    ensures ok ==> out.data == old(out.data) + Structs(active).value
  {
    hide Rendered, JoinerCount, Structs, Join;
    ghost var start := out.data;
    assert Countable(active[..0]) && Structs(active[..0]) == Some([]) by { NoStructs(active); }
    for i := 0 to |active|
      invariant Countable(active[..i]) && Structs(active[..i]).Some?
      invariant out.data == start + Structs(active[..i]).value
    {
      NextStruct(active, i);
      var s := RenderForBrowse(active[i].lobby);
      if s.None? { return false; }
      out.WRaw(s.value);
    }
    assert active[..|active|] == active;
    ok := true;
  }

  method WriteGroups(out: ByteBuffer, active: seq<Listing>) returns (ok: bool)
    requires Countable(active)
    modifies out
    ensures ok <==> Groups(active).Some?
    ensures ok ==> out.data == old(out.data) + Groups(active).value
  {
    hide UrlGroup;
    ghost var start := out.data;
    for i := 0 to |active|
      invariant Countable(active[..i]) && Groups(active[..i]).Some?
      invariant out.data == start + Groups(active[..i]).value
    {
      NoneStays(active, i + 1);
      assert active[..i + 1] == active[..i] + [active[i]];
      StructsSnoc(active[..i], active[i]);
      var g := RenderUrlGroup(active[i]);
      if g.None? { return false; }
      out.WRaw(g.value);
    }
    assert active[..|active|] == active;
    ok := true;
  }

  // The two sections one after the other, in two passes over the list.
  method BuildReply(active: seq<Listing>) returns (reply: Option<seq<Byte>>)
    requires Countable(active)
    ensures reply == Reply(active)
  {
    hide Structs, Groups, Le32;
    var out := new ByteBuffer();
    out.WU32(|active|);
    var ok := WriteStructs(out, active);
    if !ok { return None; }
    out.WU32(|active|);
    ok := WriteGroups(out, active);
    if !ok { return None; }
    Associate(Le32(|active|), Structs(active).value, Le32(|active|), Groups(active).value);
    assert [] + Le32(|active|) == Le32(|active|);
    reply := Some(out.data);
  }

  lemma Associate(a: seq<Byte>, b: seq<Byte>, c: seq<Byte>, d: seq<Byte>)
    ensures a + b + c + d == a + (b + (c + d))
  {
  }

  // ---- the client's way back ------------------------------------------------------------

  // Structs carry no length: the reader finds the end through the display name's own length word.
  function StructsAt(b: seq<Byte>, off: nat, n: nat): Option<(seq<seq<Byte>>, nat)>
    decreases n
  {
    if n == 0 then Some(([], off))
    else if off + DISPLAY_OFFSET + 2 > |b| then None
    else
      var next := off + DISPLAY_OFFSET + 2 + U16(b, off + DISPLAY_OFFSET) + SETTINGS_SIZE - 1;
      if next > |b| then None
      else match StructsAt(b, next, n - 1)
        case None => None
        case Some((rest, end)) => Some(([b[off..next]] + rest, end))
  }

  datatype ParsedGroup = ParsedGroup(gid: Word, urls: seq<seq<Byte>>)

  function GroupsAt(b: seq<Byte>, off: nat, n: nat): Option<(seq<ParsedGroup>, nat)>
    decreases n
  {
    if n == 0 then Some(([], off))
    else if off + 8 > |b| then None
    else match QStringsAt(b, off + 8, U32(b, off + 4))
      case None => None
      case Some((urls, next)) =>
        match GroupsAt(b, next, n - 1)
        case None => None
        case Some((rest, end)) => Some(([ParsedGroup(U32(b, off), urls)] + rest, end))
  }

  function ParseReply(b: seq<Byte>): Option<(seq<seq<Byte>>, seq<ParsedGroup>)> {
    if |b| < 4 then None
    else match StructsAt(b, 4, U32(b, 0))
      case None => None
      case Some((structs, off)) =>
        if off + 4 > |b| then None
        else match GroupsAt(b, off + 4, U32(b, off))
          case None => None
          case Some((groups, end)) => if end == |b| then Some((structs, groups)) else None
  }

  // A lobby whose struct can be found again and whose host has registered usable URLs.
  predicate Presentable(l: Listing) {
    && Readable(l.lobby.raw) && l.lobby.id < 0x1_0000_0000
    && l.urls != [] && forall u | u in l.urls :: FitsQString(u)
  }

  function OwnStruct(l: Listing): seq<Byte>
    requires l.lobby.id < 0x1_0000_0000 && |l.lobby.participants| < 0x1_0000_0000
  {
    Overlay(l.lobby.raw, l.lobby.id, l.lobby.ownerPid, JoinerCount(l.lobby))
  }

  predicate AllPresentable(ls: seq<Listing>) {
    Countable(ls) && forall i | 0 <= i < |ls| :: Presentable(ls[i])
  }

  lemma AllButFirst(ls: seq<Listing>)
    requires AllPresentable(ls) && ls != []
    ensures AllPresentable(ls[1..]) && Presentable(ls[0])
    ensures |ls[0].lobby.participants| < 0x1_0000_0000 && |ls[0].urls| < 0x1_0000_0000
  {
    assert ls[0] in ls;
  }

  function OwnStructs(ls: seq<Listing>): (r: seq<seq<Byte>>)
    requires AllPresentable(ls)
    ensures |r| == |ls|
  {
    if ls == [] then [] else AllButFirst(ls); [OwnStruct(ls[0])] + OwnStructs(ls[1..])
  }

  function OwnGroups(ls: seq<Listing>): (r: seq<ParsedGroup>)
    requires AllPresentable(ls)
    ensures |r| == |ls|
  {
    if ls == [] then [] else AllButFirst(ls); [ParsedGroup(ls[0].lobby.id, ls[0].urls)] + OwnGroups(ls[1..])
  }

  lemma {:induction false} StructsRoundTrip(b: seq<Byte>, off: nat, ls: seq<Listing>)
    requires AllPresentable(ls) && (Structs(ls).Some? ==> Has(b, off, Structs(ls).value))
    ensures Structs(ls).Some? && StructsAt(b, off, |ls|) == Some((OwnStructs(ls), off + |Structs(ls).value|))
    decreases ls
  {
    hide Presentable, Has, OwnStruct, Rendered, U16;
    if ls != [] {
      AllButFirst(ls);
      StructsSome(ls);
      var first := OwnStruct(ls[0]);
      HasSplit(b, off, first, Structs(ls[1..]).value);
      StructsRoundTrip(b, off + |first|, ls[1..]);
      StructEnd(b, off, ls[0]);
    }
  }

  // The reader finds where a struct ends.
  lemma StructEnd(b: seq<Byte>, off: nat, l: Listing)
    requires Presentable(l) && |l.lobby.participants| < 0x1_0000_0000 && Has(b, off, OwnStruct(l))
    ensures off + DISPLAY_OFFSET + 2 <= |b|
    ensures var next := off + DISPLAY_OFFSET + 2 + U16(b, off + DISPLAY_OFFSET) + SETTINGS_SIZE - 1;
            next == off + |OwnStruct(l)| <= |b| && b[off..next] == OwnStruct(l)
  {
    hide U16;
    OverlayFields(l.lobby.raw, l.lobby.id, l.lobby.ownerPid, JoinerCount(l.lobby));
    U16Within(b, off, OwnStruct(l), DISPLAY_OFFSET);
  }

  lemma {:induction false} StructsSome(ls: seq<Listing>)
    requires AllPresentable(ls)
    ensures Structs(ls).Some? && Groups(ls).Some?
    ensures ls != [] ==> AllPresentable(ls[1..]) && Presentable(ls[0]) && |ls[0].lobby.participants| < 0x1_0000_0000
                         && Structs(ls).value == OwnStruct(ls[0]) + Structs(ls[1..]).value
                         && Groups(ls).value == UrlGroup(ls[0]).value + Groups(ls[1..]).value
  {
    if ls != [] {
      AllButFirst(ls);
      StructsSome(ls[1..]);
    }
  }

  lemma U16Within(b: seq<Byte>, off: nat, chunk: seq<Byte>, at: nat)
    requires Has(b, off, chunk) && at + 2 <= |chunk|
    ensures off + at + 2 <= |b| && U16(b, off + at) == U16(chunk, at)
  {
    var c := b[off..off + |chunk|];
    assert c[at] == b[off + at] && c[at + 1] == b[off + at + 1];
  }

  lemma {:induction false} GroupsRoundTrip(b: seq<Byte>, off: nat, ls: seq<Listing>)
    requires AllPresentable(ls) && (Groups(ls).Some? ==> Has(b, off, Groups(ls).value))
    ensures Groups(ls).Some? && GroupsAt(b, off, |ls|) == Some((OwnGroups(ls), off + |Groups(ls).value|))
    decreases ls
  {
    hide Presentable, Has, UrlGroup, U32, QStringsAt;
    if ls != [] {
      AllButFirst(ls);
      StructsSome(ls);
      var first := UrlGroup(ls[0]).value;
      HasSplit(b, off, first, Groups(ls[1..]).value);
      GroupsRoundTrip(b, off + |first|, ls[1..]);
      GroupRoundTrip(b, off, ls[0]);
    }
  }

  lemma GroupRoundTrip(b: seq<Byte>, off: nat, l: Listing)
    requires Presentable(l) && |l.urls| < 0x1_0000_0000 && Has(b, off, UrlGroup(l).value)
    ensures off + 8 <= |b| && U32(b, off) == l.lobby.id && U32(b, off + 4) == |l.urls|
    ensures QStringsAt(b, off + 8, |l.urls|) == Some((l.urls, off + |UrlGroup(l).value|))
  {
    hide Le32, U32, QStrings, QStringsAt;
    var head := Le32(l.lobby.id) + Le32(|l.urls|);
    HasSplit(b, off, head, QStrings(l.urls));
    HasSplit(b, off, Le32(l.lobby.id), Le32(|l.urls|));
    HasLe32(b, off, l.lobby.id);
    HasLe32(b, off + 4, |l.urls|);
    QStringsRoundTrip(b, off + 8, l.urls);
  }

  // Reading the reply gives back, in order, every struct (the host's blob but for the three windows and the
  // tail) and at the same index a URL group with the same id and the host's URLs.
  lemma ReplyRoundTrip(ls: seq<Listing>)
    requires AllPresentable(ls)
    ensures Reply(ls).Some? && ParseReply(Reply(ls).value) == Some((OwnStructs(ls), OwnGroups(ls)))
  {
    hide Structs, Groups, StructsAt, GroupsAt, OwnStructs, OwnGroups, Has, Presentable;
    StructsSome(ls);
    var b, s, g := Reply(ls).value, Structs(ls).value, Groups(ls).value;
    ReplyParts(b, |ls|, s, g);
    StructsRoundTrip(b, 4, ls);
    GroupsRoundTrip(b, 8 + |s|, ls);
  }

  lemma ReplyParts(b: seq<Byte>, n: Word, s: seq<Byte>, g: seq<Byte>)
    requires b == Le32(n) + (s + (Le32(n) + g))
    ensures |b| == 8 + |s| + |g| && U32(b, 0) == n && Has(b, 4, s) && U32(b, 4 + |s|) == n && Has(b, 8 + |s|, g)
  {
    hide U32, Le32;
    HasMiddle([], b, []);
    assert [] + b + [] == b;
    HasSplit(b, 0, Le32(n), s + (Le32(n) + g));
    HasSplit(b, 4, s, Le32(n) + g);
    HasSplit(b, 4 + |s|, Le32(n), g);
    HasLe32(b, 0, n);
    HasLe32(b, 4 + |s|, n);
  }

  // The two lists are aligned by index: struct i and group i are of listed lobby i and carry its id.
  lemma {:induction false} ReplyAligned(ls: seq<Listing>, i: nat)
    requires AllPresentable(ls) && i < |ls|
    ensures Presentable(ls[i]) && |ls[i].lobby.participants| < 0x1_0000_0000
    ensures OwnStructs(ls)[i] == OwnStruct(ls[i]) && OwnGroups(ls)[i] == ParsedGroup(ls[i].lobby.id, ls[i].urls)
    ensures |OwnStruct(ls[i])| >= GATHERING_ID_OFFSET + 4
            && U32(OwnStruct(ls[i]), GATHERING_ID_OFFSET) == OwnGroups(ls)[i].gid
  {
    hide U32;
    AllButFirst(ls);
    if i > 0 {
      ReplyAligned(ls[1..], i - 1);
    } else {
      OverlayFields(ls[0].lobby.raw, ls[0].lobby.id, ls[0].lobby.ownerPid, JoinerCount(ls[0].lobby));
    }
  }

  // The windows miss everything the filter looks at.
  lemma OverlayKeepsFields(raw: seq<Byte>, gid: Word, owner: Word, count: Word)
    requires Readable(raw)
    ensures FieldsAt(Overlay(raw, gid, owner, count), SettingsStart(raw)) == FieldsAt(raw, SettingsStart(raw))
  {
    hide U32;
    var r, start := Overlay(raw, gid, owner, count), SettingsStart(raw);
    assert forall i | start + 0x15 <= i < start + FIELDS_END :: r[i] == raw[i];
    assert r[start + 0x21..start + 0x25] == raw[start + 0x21..start + 0x25];
    assert r[start + 0x25..start + 0x29] == raw[start + 0x25..start + 0x29];
    U32Local(r, start + 0x21, raw, start + 0x21);
    U32Local(r, start + 0x25, raw, start + 0x25);
  }

  // A lobby is listed exactly when it is open and passes the filter, and then its struct, read again at the
  // filter's offsets behind its own display name, still does.
  lemma {:induction false} ListedStillMatch(ls: seq<Listing>, f: Filter, toInt: seq<Byte> -> Option<int>, l: Listing)
    requires Countable(ls) && Listed(ls, Some(f), toInt).Some?
    ensures l in Listed(ls, Some(f), toInt).value
        <==> l in ls && Open(l) && MatchesFilter(l.lobby.raw, f, toInt) == Some(true)
    ensures l in Listed(ls, Some(f), toInt).value && Presentable(l) ==>
              Satisfies(FieldsAt(OwnStruct(l), DISPLAY_OFFSET + 2 + U16(OwnStruct(l), DISPLAY_OFFSET)), f, toInt)
                  == Some(true)
  {
    hide Satisfies, PublicRemaining, Overlay;
    ListedExactly(ls, f, toInt, l);
    if l in Listed(ls, Some(f), toInt).value && Presentable(l) {
      OverlayKeepsFields(l.lobby.raw, l.lobby.id, l.lobby.ownerPid, JoinerCount(l.lobby));
      OverlayFields(l.lobby.raw, l.lobby.id, l.lobby.ownerPid, JoinerCount(l.lobby));
    }
  }

  lemma {:induction false} ListedExactly(ls: seq<Listing>, f: Filter, toInt: seq<Byte> -> Option<int>, l: Listing)
    requires Listed(ls, Some(f), toInt).Some?
    ensures l in Listed(ls, Some(f), toInt).value
        <==> l in ls && Open(l) && MatchesFilter(l.lobby.raw, f, toInt) == Some(true)
  {
    hide MatchesFilter, Open;
    if ls != [] {
      var n := |ls| - 1;
      assert ls == ls[..n] + [ls[n]];
      ListedExactly(ls[..n], f, toInt, l);
    }
  }

  // ---- from request to reply ------------------------------------------------------------

  // What puts a lobby in the list.
  predicate Passes(l: Listing, f: Option<Filter>, toInt: seq<Byte> -> Option<int>) {
    Open(l) && (f.Some? ==> MatchesFilter(l.lobby.raw, f.value, toInt) == Some(true))
  }

  // The places in the registry of the listed lobbies: ascending, and exactly those of the lobbies that pass.
  lemma {:induction false} ListedOrder(ls: seq<Listing>, f: Option<Filter>, toInt: seq<Byte> -> Option<int>)
    returns (at: seq<nat>)
    requires Listed(ls, f, toInt).Some?
    ensures |at| == |Listed(ls, f, toInt).value|
    ensures forall k | 0 <= k < |at| :: at[k] < |ls| && Listed(ls, f, toInt).value[k] == ls[at[k]]
    ensures Rising(at)
    ensures forall i | 0 <= i < |ls| :: i in at <==> Passes(ls[i], f, toInt)
  {
    hide MatchesFilter, Open, Rising;
    at := [];
    assert Rising(at) by { NoPlaces(); }
    if ls != [] {
      var n := |ls| - 1;
      at := ListedOrder(ls[..n], f, toInt);
      assert forall i | 0 <= i < n :: ls[..n][i] == ls[i];
      if Passes(ls[n], f, toInt) {
        RisingSnoc(at, n);
        forall i: nat ensures i in at + [n] <==> i in at || i == n { InSnoc(at, n, i); }
        at := at + [n];
      }
    }
  }

  // A search, read by the client that sent it: entry k is, in registry order, the k-th lobby that passes the
  // criteria of the request, its struct and its host's URLs at the same index under the same id.
  lemma SearchShows(ls: seq<Listing>, params: seq<Byte>, toInt: seq<Byte> -> Option<int>) returns (at: seq<nat>)
    requires Countable(ls) && Listed(ls, Asked(params), toInt).Some?
    requires AllPresentable(Listed(ls, Asked(params), toInt).value)
    ensures Rising(at)
    ensures forall i | 0 <= i < |ls| :: i in at <==> Passes(ls[i], Asked(params), toInt)
    ensures var reply := Reply(Listed(ls, Asked(params), toInt).value);
            && reply.Some? && ParseReply(reply.value).Some?
            && var (structs, groups) := ParseReply(reply.value).value;
               && |structs| == |groups| == |at|
               && forall k | 0 <= k < |at| ::
                    && at[k] < |ls| && Presentable(ls[at[k]]) && |ls[at[k]].lobby.participants| < 0x1_0000_0000
                    && structs[k] == OwnStruct(ls[at[k]])
                    && groups[k] == ParsedGroup(ls[at[k]].lobby.id, ls[at[k]].urls)
  {
    hide Reply, ParseReply, OwnStruct, OwnStructs, OwnGroups, Passes, Listed, Rising;
    var active := Listed(ls, Asked(params), toInt).value;
    at := ListedOrder(ls, Asked(params), toInt);
    ReplyRoundTrip(active);
    forall k | 0 <= k < |at|
      ensures Presentable(active[k]) && |active[k].lobby.participants| < 0x1_0000_0000
      ensures OwnStructs(active)[k] == OwnStruct(active[k])
      ensures OwnGroups(active)[k] == ParsedGroup(active[k].lobby.id, active[k].urls)
    {
      ReplyAligned(active, k);
    }
  }
}
