/**
  SparkStats lists (protocols/game.py): the entry writer shared by the m=9, m=12
  and leaderboard replies, and the two hand-written walkers that read the
  sender's vectors out of an m=12 upload. Stat slots are opaque 32-bit words.
*/
module SparkStats {
  import opened Options
  import opened Bytes
  import opened RmcTypes

  const VEC0_LEN := 122
  const VEC1_LEN := 96

  datatype Entry = Entry(pid: Word, name: seq<Byte>, txn: Word, vec0: seq<Word>, vec1: seq<Word>, vec2: seq<Word>)

  // Entries whose name and vector lengths fit their prefixes.
  predicate Writable(e: Entry) {
    && FitsQString(e.name)
    && |e.vec0| < 0x1_0000_0000 && |e.vec1| < 0x1_0000_0000 && |e.vec2| < 0x1_0000_0000
  }

  function VecBytes(v: seq<Word>): (r: seq<Byte>)
    ensures |r| == 4 + 4 * |v|
  {
    Le32(|v| % 0x1_0000_0000) + WordBytes(v)
  }

  function EntryBytes(e: Entry): (r: seq<Byte>)
    ensures |r| == 23 + |e.name| + 4 * (|e.vec0| + |e.vec1| + |e.vec2|)
  {
    Le32(e.pid) + (QString(e.name) + (Le32(e.txn) + (VecBytes(e.vec0) + (VecBytes(e.vec1) + VecBytes(e.vec2)))))
  }

  function EntriesBytes(es: seq<Entry>): seq<Byte> {
    if es == [] then [] else EntryBytes(es[0]) + EntriesBytes(es[1..])
  }

  // The m=12 upload: gathering id, counter, entry count, entries.
  function UploadBytes(gid: Word, counter: Word, es: seq<Entry>): seq<Byte>
    requires |es| < 0x1_0000_0000
  {
    Le32(gid) + (Le32(counter) + (Le32(|es|) + EntriesBytes(es)))
  }

  // ---- the writer ------------------------------------------------------------

  // A sparse slot map made dense: unmentioned slots are 0.
  function Dense(slots: map<nat, Word>, n: nat): (v: seq<Word>)
    ensures |v| == n && forall i | 0 <= i < n :: v[i] == (if i in slots then slots[i] else 0)
  {
    seq(n, i => if i in slots then slots[i] else 0)
  }

  function Decimal(n: nat): seq<Byte> {
    if n < 10 then [48 + n] else Decimal(n / 10) + [48 + n % 10]
  }

  // The number a run of digits stands for.
  function DecimalValue(ds: seq<Byte>): int {
    if ds == [] then 0 else 10 * DecimalValue(ds[..|ds| - 1]) + (ds[|ds| - 1] as int - 48)
  }

  lemma {:induction false} DecimalReads(n: nat)
    ensures Decimal(n) != [] && DecimalValue(Decimal(n)) == n && (n > 0 ==> Decimal(n)[0] != 48)
    ensures forall i | 0 <= i < |Decimal(n)| :: 48 <= Decimal(n)[i] <= 57
  {
    if n < 10 {
      assert DecimalValue([]) == 0 && [48 + n][..0] == [];
    } else {
      DecimalReads(n / 10);
      assert (Decimal(n / 10) + [48 + n % 10])[..|Decimal(n / 10)|] == Decimal(n / 10);
    }
  }

  // `name or f"PID{pid}"`
  function EntryName(pid: nat, name: Option<seq<Byte>>): seq<Byte> {
    if name.Some? && name.value != [] then name.value else [80, 73, 68] + Decimal(pid)
  }

  method WriteDense(out: ByteBuffer, slots: map<nat, Word>, n: nat)
    modifies out
    ensures out.data == old(out.data) + VecBytes(Dense(slots, n))
  {
    out.WU32(n);
    ghost var dense := Dense(slots, n);
    ghost var start := out.data;
    for i := 0 to n
      invariant out.data == start + WordBytes(dense[..i])
    {
      out.WRaw(Le32(if i in slots then slots[i] else 0));
      WordBytesSnoc(dense[..i], dense[i]);
      assert dense[..i + 1] == dense[..i] + [dense[i]];
    }
    assert dense[..n] == dense;
  }

  // `_write_sparkstats_entry`: appends one entry, in place.
  method WriteEntry(out: ByteBuffer, pid: nat, vec0: map<nat, Word>, vec1: map<nat, Word>, vec2: map<nat, Word>,
                    txn: nat, vec2Len: nat, name: Option<seq<Byte>>)
    modifies out
    ensures out.data == old(out.data)
      + EntryBytes(Entry(pid % 0x1_0000_0000, EntryName(pid, name), txn % 0x1_0000_0000,
                         Dense(vec0, VEC0_LEN), Dense(vec1, VEC1_LEN), Dense(vec2, vec2Len)))
  {
    out.WU32(pid);
    out.WQString(EntryName(pid, name));
    out.WU32(txn);
    WriteDense(out, vec0, VEC0_LEN);
    WriteDense(out, vec1, VEC1_LEN);
    WriteDense(out, vec2, vec2Len);
    Reassociate(old(out.data), Le32(pid % 0x1_0000_0000), QString(EntryName(pid, name)), Le32(txn % 0x1_0000_0000),
                VecBytes(Dense(vec0, VEC0_LEN)), VecBytes(Dense(vec1, VEC1_LEN)), VecBytes(Dense(vec2, vec2Len)));
  }

  lemma Reassociate(o: seq<Byte>, a: seq<Byte>, b: seq<Byte>, c: seq<Byte>, d: seq<Byte>, e: seq<Byte>, f: seq<Byte>)
    ensures o + a + b + c + d + e + f == o + (a + (b + (c + (d + (e + f)))))
  {
  }

  // ---- reference reading of one entry -----------------------------------------

  // A fully bounds-checked reading of the entry at an offset: everything up to and
  // including the length of vec2. `next` is where the following entry would start.
  datatype Reading = Reading(pid: Word, name: seq<Byte>, txn: Word, vec0: seq<Word>, vec1: seq<Word>, next: nat)

  function VecAt(b: seq<Byte>, off: nat): Option<(seq<Word>, nat)> {
    if off + 4 > |b| || off + 4 + 4 * U32(b, off) > |b| then None
    else Some((Words(b, off + 4, U32(b, off)), off + 4 + 4 * U32(b, off)))
  }

  // The text between the pid and the transaction id.
  function NameAt(b: seq<Byte>, off: nat): seq<Byte>
    requires off + 6 <= |b| && off + 6 + U16(b, off + 4) <= |b|
  {
    StripNul(b[off + 6..off + 6 + U16(b, off + 4)])
  }

  function EntryAt(b: seq<Byte>, off: nat): Option<Reading> {
    if off + 6 > |b| then None
    else
      var vecs := off + 6 + U16(b, off + 4) + 4;
      match VecAt(b, vecs)
      case None => None
      case Some((v0, off1)) =>
        match VecAt(b, off1)
        case None => None
        case Some((v1, off2)) =>
          if off2 + 4 > |b| then None
          else Some(Reading(U32(b, off), NameAt(b, off), U32(b, vecs - 4), v0, v1, off2 + 4 + 4 * U32(b, off2)))
  }

  // The first of `left` entries from `off` on that carries `pid`; any unreadable entry on the way ends the search.
  function FindEntry(b: seq<Byte>, off: nat, left: nat, pid: Word): Option<Reading>
    decreases left
  {
    if left == 0 || EntryAt(b, off).None? then None
    else if EntryAt(b, off).value.pid == pid then EntryAt(b, off)
    else FindEntry(b, EntryAt(b, off).value.next, left - 1, pid)
  }

  function SenderEntry(params: seq<Byte>, pid: Word): Option<Reading> {
    if |params| < 12 then None else FindEntry(params, 12, U32(params, 8), pid)
  }

  // The offsets a walker passes through while every count it needs is readable.
  lemma NextEntry(b: seq<Byte>, off: nat, off0: nat, off1: nat, off2: nat)
    requires off + 6 <= |b| && off0 == off + 10 + U16(b, off + 4)
    requires off0 + 4 <= |b| && off1 == off0 + 4 + 4 * U32(b, off0)
    requires off1 + 4 <= |b| && off2 == off1 + 4 + 4 * U32(b, off1)
    requires off2 + 4 <= |b|
    ensures EntryAt(b, off) == Some(Reading(U32(b, off), NameAt(b, off), U32(b, off0 - 4),
                                            Words(b, off0 + 4, U32(b, off0)), Words(b, off1 + 4, U32(b, off1)),
                                            off2 + 4 + 4 * U32(b, off2)))
  {
  }

  // ---- the two walkers ---------------------------------------------------------

  // `_parse_m12_sender_vec0`: checks vec0 against the buffer, skips vec1.
  method ParseSenderVec0(params: seq<Byte>, senderPid: Word) returns (vec: Option<seq<Word>>)
    ensures vec == (match SenderEntry(params, senderPid) case Some(e) => Some(e.vec0) case None => None)
  {
    hide U32, U16, Words, NameAt;
    if |params| < 12 { return None; }
    var off: nat := 8;
    var pcount := U32(params, off); off := off + 4;
    for i := 0 to pcount
      invariant SenderEntry(params, senderPid) == FindEntry(params, off, pcount - i, senderPid)
    {
      ghost var entry := off;
      if off + 4 > |params| { return None; }
      var pid: nat := U32(params, off); off := off + 4;
      if off + 2 > |params| { return None; }
      off := off + 2 + U16(params, off);
      off := off + 4;
      if off + 4 > |params| { return None; }
      var v0c: nat := U32(params, off); off := off + 4;
      if off + 4 * v0c > |params| { return None; }
      ghost var off0 := off - 4;
      var v0 := Words(params, off, v0c); off := off + v0c * 4;
      if off + 4 > |params| { return None; }
      ghost var off1 := off;
      var v1c: nat := U32(params, off); off := off + 4;
      off := off + v1c * 4;
      if off + 4 > |params| { return None; }
      NextEntry(params, entry, off0, off1, off);
      var v2c: nat := U32(params, off); off := off + 4;
      off := off + v2c * 4;
      if pid == senderPid { return Some(v0); }
    }
    return None;
  }

  // `_parse_m12_sender_vec1`: skips vec0, checks vec1.
  method ParseSenderVec1(params: seq<Byte>, senderPid: Word) returns (vec: Option<seq<Word>>)
    ensures vec == (match SenderEntry(params, senderPid) case Some(e) => Some(e.vec1) case None => None)
  {
    hide U32, U16, Words, NameAt;
    if |params| < 12 { return None; }
    var off: nat := 8;
    var pcount := U32(params, off); off := off + 4;
    for i := 0 to pcount
      invariant SenderEntry(params, senderPid) == FindEntry(params, off, pcount - i, senderPid)
    {
      ghost var entry := off;
      if off + 4 > |params| { return None; }
      var pid: nat := U32(params, off); off := off + 4;
      if off + 2 > |params| { return None; }
      off := off + 2 + U16(params, off);
      off := off + 4;
      if off + 4 > |params| { return None; }
      var v0c: nat := U32(params, off); off := off + 4;
      ghost var off0 := off - 4;
      off := off + v0c * 4;
      if off + 4 > |params| { return None; }
      ghost var off1 := off;
      var v1c: nat := U32(params, off); off := off + 4;
      if off + 4 * v1c > |params| { return None; }
      var v1 := Words(params, off, v1c); off := off + v1c * 4;
      if off + 4 > |params| { return None; }
      NextEntry(params, entry, off0, off1, off);
      var v2c: nat := U32(params, off); off := off + 4;
      off := off + v2c * 4;
      if pid == senderPid { return Some(v1); }
    }
    return None;
  }

  // Both walks of one upload, as ReportStats makes them. Although each checks a different vector,
  // they agree on every byte string: both succeed or neither does, and on the same entry.
  method ParseSenderVectors(params: seq<Byte>, senderPid: Word)
    returns (vec0: Option<seq<Word>>, vec1: Option<seq<Word>>)
    ensures vec0.Some? <==> vec1.Some?
    ensures vec0.Some? <==> SenderEntry(params, senderPid).Some?
    ensures vec0.Some? ==> SenderEntry(params, senderPid).value.vec0 == vec0.value
                           && SenderEntry(params, senderPid).value.vec1 == vec1.value
  {
    vec0 := ParseSenderVec0(params, senderPid);
    vec1 := ParseSenderVec1(params, senderPid);
  }

  // ---- round trip ----------------------------------------------------------------

  lemma VecRoundTrip(b: seq<Byte>, off: nat, v: seq<Word>)
    requires Has(b, off, VecBytes(v)) && |v| < 0x1_0000_0000
    ensures VecAt(b, off) == Some((v, off + |VecBytes(v)|))
  {
    HasSplit(b, off, Le32(|v|), WordBytes(v));
    HasLe32(b, off, |v|);
    HasWords(b, off + 4, v);
  }

  // The header of an entry whose vectors spell `tail`.
  lemma EntryHead(b: seq<Byte>, off: nat, pid: Word, name: seq<Byte>, txn: Word, tail: seq<Byte>)
    requires Has(b, off, Le32(pid) + (QString(name) + (Le32(txn) + tail))) && FitsQString(name)
    ensures off + 6 <= |b| && U32(b, off) == pid && U16(b, off + 4) == |name| + 1
    ensures Has(b, off + 11 + |name|, tail)
    ensures off + 11 + |name| <= |b| && NameAt(b, off) == name && U32(b, off + 7 + |name|) == txn
  {
    HasSplit(b, off, Le32(pid), QString(name) + (Le32(txn) + tail));
    HasLe32(b, off, pid);
    HasSplit(b, off + 4, QString(name), Le32(txn) + tail);
    NameLength(b, off + 4, name);
    HasSplit(b, off + 7 + |name|, Le32(txn), tail);
    HasLe32(b, off + 7 + |name|, txn);
    QStringRoundTrip(b, off + 4, name);
  }

  lemma NameLength(b: seq<Byte>, off: nat, name: seq<Byte>)
    requires Has(b, off, QString(name)) && FitsQString(name)
    ensures U16(b, off) == |name| + 1
  {
    assert QString(name) == Le16(|name| + 1) + (name + [0]);
    HasSplit(b, off, Le16(|name| + 1), name + [0]);
    HasLe16(b, off, |name| + 1);
  }

  lemma EntryVectors(b: seq<Byte>, off0: nat, off1: nat, off2: nat, v0: seq<Word>, v1: seq<Word>, v2: seq<Word>)
    requires Has(b, off0, VecBytes(v0) + (VecBytes(v1) + VecBytes(v2)))
    requires off1 == off0 + 4 + 4 * |v0| && off2 == off1 + 4 + 4 * |v1|
    requires |v0| < 0x1_0000_0000 && |v1| < 0x1_0000_0000 && |v2| < 0x1_0000_0000
    ensures VecAt(b, off0) == Some((v0, off1)) && VecAt(b, off1) == Some((v1, off2))
    ensures VecAt(b, off2) == Some((v2, off2 + 4 + 4 * |v2|))
  {
    hide VecBytes, VecAt;
    VecThen(b, off0, v0, VecBytes(v1) + VecBytes(v2));
    VecThen(b, off1, v1, VecBytes(v2));
    VecRoundTrip(b, off2, v2);
  }

  lemma VecThen(b: seq<Byte>, off: nat, v: seq<Word>, tail: seq<Byte>)
    requires Has(b, off, VecBytes(v) + tail) && |v| < 0x1_0000_0000
    ensures VecAt(b, off) == Some((v, off + 4 + 4 * |v|)) && Has(b, off + 4 + 4 * |v|, tail)
  {
    HasSplit(b, off, VecBytes(v), tail);
    VecRoundTrip(b, off, v);
  }

  lemma EntryRoundTrip(b: seq<Byte>, off: nat, e: Entry)
    requires Has(b, off, EntryBytes(e)) && Writable(e)
    ensures EntryAt(b, off) == Some(Reading(e.pid, e.name, e.txn, e.vec0, e.vec1, off + |EntryBytes(e)|))
  {
    hide NameAt, VecAt, VecBytes, EntryAt, U32, U16, Has, QString, Le32;
    var off0 := off + 11 + |e.name|;
    var off1 := off0 + 4 + 4 * |e.vec0|;
    var off2 := off1 + 4 + 4 * |e.vec1|;
    EntryHead(b, off, e.pid, e.name, e.txn, VecBytes(e.vec0) + (VecBytes(e.vec1) + VecBytes(e.vec2)));
    EntryVectors(b, off0, off1, off2, e.vec0, e.vec1, e.vec2);
    ReadingOf(b, off, off0, off1, off2, e.vec0, e.vec1);
  }

  lemma ReadingOf(b: seq<Byte>, off: nat, off0: nat, off1: nat, off2: nat, v0: seq<Word>, v1: seq<Word>)
    requires off + 6 <= |b| && off0 == off + 10 + U16(b, off + 4) && off0 <= |b|
    requires VecAt(b, off0) == Some((v0, off1)) && VecAt(b, off1) == Some((v1, off2)) && VecAt(b, off2).Some?
    ensures EntryAt(b, off) == Some(Reading(U32(b, off), NameAt(b, off), U32(b, off0 - 4), v0, v1,
                                            VecAt(b, off2).value.1))
  {
  }

  // A reading gives back everything that was written before vec2.
  predicate Reads(r: Reading, e: Entry) {
    r.pid == e.pid && r.name == e.name && r.txn == e.txn && r.vec0 == e.vec0 && r.vec1 == e.vec1
  }

  // Every entry of a list, one after the other, and where they end.
  function EntriesAt(b: seq<Byte>, off: nat, n: nat): Option<(seq<Reading>, nat)>
    decreases n
  {
    if n == 0 then Some(([], off))
    else match EntryAt(b, off)
      case None => None
      case Some(first) =>
        match EntriesAt(b, first.next, n - 1)
        case None => None
        case Some((rest, end)) => Some(([first] + rest, end))
  }

  lemma {:induction false} EntriesRoundTrip(b: seq<Byte>, off: nat, es: seq<Entry>)
    requires Has(b, off, EntriesBytes(es)) && forall e | e in es :: Writable(e)
    ensures EntriesAt(b, off, |es|).Some?
    ensures var (rs, end) := EntriesAt(b, off, |es|).value;
            |rs| == |es| && end == off + |EntriesBytes(es)| && forall k | 0 <= k < |es| :: Reads(rs[k], es[k])
    decreases es
  {
    hide Has, EntryBytes, EntryAt, Writable;
    if es != [] {
      HasSplit(b, off, EntryBytes(es[0]), EntriesBytes(es[1..]));
      EntryRoundTrip(b, off, es[0]);
      EntriesRoundTrip(b, off + |EntryBytes(es[0])|, es[1..]);
    }
  }

  // The first entry of a list that carries `pid`.
  function FirstWithPid(es: seq<Entry>, pid: Word): Option<Entry> {
    if es == [] then None
    else if es[0].pid == pid then Some(es[0])
    else FirstWithPid(es[1..], pid)
  }

  lemma {:induction false} FindEntryRoundTrip(b: seq<Byte>, off: nat, es: seq<Entry>, pid: Word)
    requires Has(b, off, EntriesBytes(es)) && forall e | e in es :: Writable(e)
    ensures match FirstWithPid(es, pid)
            case None => FindEntry(b, off, |es|, pid).None?
            case Some(e) => FindEntry(b, off, |es|, pid).Some?
                            && Reads(FindEntry(b, off, |es|, pid).value, e)
    decreases es
  {
    hide Has, EntryBytes, EntryAt, Writable;
    if es != [] {
      HasSplit(b, off, EntryBytes(es[0]), EntriesBytes(es[1..]));
      EntryRoundTrip(b, off, es[0]);
      FindEntryRoundTrip(b, off + |EntryBytes(es[0])|, es[1..], pid);
    }
  }

  // Reading an upload (whatever follows it in the buffer) finds the vectors of the first entry with the sender's pid.
  lemma UploadRoundTrip(gid: Word, counter: Word, es: seq<Entry>, junk: seq<Byte>, pid: Word)
    requires |es| < 0x1_0000_0000 && forall e | e in es :: Writable(e)
    ensures var found := SenderEntry(UploadBytes(gid, counter, es) + junk, pid);
            match FirstWithPid(es, pid)
            case None => found.None?
            case Some(e) => found.Some? && found.value.vec0 == e.vec0 && found.value.vec1 == e.vec1
  {
    var b := UploadBytes(gid, counter, es) + junk;
    HasMiddle([], UploadBytes(gid, counter, es), junk);
    assert b == [] + UploadBytes(gid, counter, es) + junk;
    HasSplit(b, 0, Le32(gid), Le32(counter) + (Le32(|es|) + EntriesBytes(es)));
    HasSplit(b, 4, Le32(counter), Le32(|es|) + EntriesBytes(es));
    HasSplit(b, 8, Le32(|es|), EntriesBytes(es));
    HasLe32(b, 8, |es|);
    FindEntryRoundTrip(b, 12, es, pid);
  }
}
