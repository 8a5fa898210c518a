/**
  Quazal primitive types (rmc/types.py): the `w_*` writers that grow a byte
  buffer in place, and the `Reader` cursor. Text is the bytes of its UTF-8 form.
*/
module RmcTypes {
  import opened Options
  import opened Bytes

  // A qString: u16 length counting the trailing NUL, the text, the NUL.
  function QString(text: seq<Byte>): (r: seq<Byte>)
    ensures |r| == |text| + 3
  {
    Le16((|text| + 1) % 0x1_0000) + text + [0]
  }

  function QBuffer(data: seq<Byte>): seq<Byte> {
    Le32(|data| % 0x1_0000_0000) + data
  }

  // Texts whose length, NUL included, fits the u16 prefix.
  predicate FitsQString(text: seq<Byte>) { |text| + 1 < 0x1_0000 }

  class ByteBuffer {
    var data: seq<Byte>

    constructor ()
      ensures data == []
    {
      data := [];
    }

    method WU16(v: int)
      modifies this
      ensures data == old(data) + Le16(v % 0x1_0000)
    {
      data := data + Le16(v % 0x1_0000);
    }

    method WU32(v: int)
      modifies this
      ensures data == old(data) + Le32(v % 0x1_0000_0000)
    {
      data := data + Le32(v % 0x1_0000_0000);
    }

    method WRaw(bytes: seq<Byte>)
      modifies this
      ensures data == old(data) + bytes
    {
      data := data + bytes;
    }

    method WQString(text: seq<Byte>)
      modifies this
      ensures data == old(data) + QString(text)
    {
      var raw := text + [0];
      WU16(|raw|);
      WRaw(raw);
    }

    method WQBuffer(bytes: seq<Byte>)
      modifies this
      ensures data == old(data) + QBuffer(bytes)
    {
      WU32(|bytes|);
      WRaw(bytes);
    }
  }

  /** Cursor over a byte string. A raised underflow is a `None` and leaves the cursor where the source leaves it. */
  class Reader {
    const data: seq<Byte>
    var offset: nat

    constructor (data: seq<Byte>, offset: nat := 0)
      ensures this.data == data && this.offset == offset
    {
      this.data := data;
      this.offset := offset;
    }

    method Take(n: nat) returns (chunk: Option<seq<Byte>>)
      modifies this
      ensures chunk.Some? <==> old(offset) + n <= |data|
      ensures chunk.Some? ==> |chunk.value| == n && Has(data, old(offset), chunk.value) && offset == old(offset) + n
      ensures chunk.None? ==> offset == old(offset)
    {
      if offset + n > |data| { return None; }
      chunk := Some(data[offset..offset + n]);
      offset := offset + n;
    }

    method U16() returns (v: Option<Short>)
      modifies this
      ensures v == if old(offset) + 2 <= |data| then Some(Bytes.U16(data, old(offset))) else None
      ensures offset == if v.Some? then old(offset) + 2 else old(offset)
    {
      var chunk := Take(2);
      if chunk.None? { return None; }
      v := Some(Bytes.U16(chunk.value, 0));
    }

    method U32() returns (v: Option<Word>)
      modifies this
      ensures v == if old(offset) + 4 <= |data| then Some(Bytes.U32(data, old(offset))) else None
      ensures offset == if v.Some? then old(offset) + 4 else old(offset)
    {
      var chunk := Take(4);
      if chunk.None? { return None; }
      v := Some(Bytes.U32(chunk.value, 0));
    }

    method ReadQString() returns (text: Option<seq<Byte>>)
      modifies this
      ensures var r := QStringAt(data, old(offset));
              text == (if r.Some? then Some(r.value.0) else None)
      ensures offset == if text.Some? then QStringAt(data, old(offset)).value.1
                        else if old(offset) + 2 <= |data| then old(offset) + 2 else old(offset)
    {
      var n := U16();
      if n.None? { return None; }
      var raw := Take(n.value);
      if raw.None? { return None; }
      text := Some(StripNul(raw.value));
    }
  }

  // One trailing NUL, if there is one, is not part of the text.
  function StripNul(raw: seq<Byte>): seq<Byte> {
    if |raw| > 0 && raw[|raw| - 1] == 0 then raw[..|raw| - 1] else raw
  }

  // The text of the qString at `off` and the offset after it.
  function QStringAt(b: seq<Byte>, off: nat): Option<(seq<Byte>, nat)> {
    if off + 2 > |b| || off + 2 + U16(b, off) > |b| then None
    else Some((StripNul(b[off + 2..off + 2 + U16(b, off)]), off + 2 + U16(b, off)))
  }

  // A written qString reads back, and the cursor lands just after it.
  lemma QStringRoundTrip(b: seq<Byte>, off: nat, text: seq<Byte>)
    requires Has(b, off, QString(text)) && FitsQString(text)
    ensures QStringAt(b, off) == Some((text, off + |QString(text)|))
  {
    assert QString(text) == Le16(|text| + 1) + (text + [0]);
    HasSplit(b, off, Le16(|text| + 1), text + [0]);
    HasLe16(b, off, |text| + 1);
  }

  // A list of qStrings behind its count, as station URLs travel.
  function QStrings(texts: seq<seq<Byte>>): seq<Byte> {
    if texts == [] then [] else QString(texts[0]) + QStrings(texts[1..])
  }

  function QStringsAt(b: seq<Byte>, off: nat, n: nat): Option<(seq<seq<Byte>>, nat)>
    decreases n
  {
    if n == 0 then Some(([], off))
    else match QStringAt(b, off)
      case None => None
      case Some((text, next)) =>
        match QStringsAt(b, next, n - 1)
        case None => None
        case Some((rest, end)) => Some(([text] + rest, end))
  }

  lemma {:induction false} QStringsRoundTrip(b: seq<Byte>, off: nat, texts: seq<seq<Byte>>)
    requires Has(b, off, QStrings(texts)) && forall t | t in texts :: FitsQString(t)
    ensures QStringsAt(b, off, |texts|) == Some((texts, off + |QStrings(texts)|))
    decreases texts
  {
    hide QString, QStringAt, Has;
    if texts != [] {
      var first, rest := QString(texts[0]), texts[1..];
      HasSplit(b, off, first, QStrings(rest));
      QStringRoundTrip(b, off, texts[0]);
      QStringsRoundTrip(b, off + |first|, rest);
      assert [texts[0]] + rest == texts;
    }
  }
}
