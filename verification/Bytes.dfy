/**
  Bytes, 32-bit words and the little-endian integers every wire format of the
  server is made of (Python's `struct` codes `<H` and `<I`).
*/
module Bytes {
  type Byte = b: int | 0 <= b < 256
  type Short = s: int | 0 <= s < 0x1_0000
  type Word = w: int | 0 <= w < 0x1_0000_0000

  function Le16(v: Short): (r: seq<Byte>)
    ensures |r| == 2
  {
    [v % 256, v / 256]
  }

  function Le32(v: Word): (r: seq<Byte>)
    ensures |r| == 4
  {
    [v % 256, v / 256 % 256, v / 65536 % 256, v / 16777216]
  }

  function U16(b: seq<Byte>, off: nat): Short
    requires off + 2 <= |b|
  {
    b[off] as int + 256 * b[off + 1] as int
  }

  function U32(b: seq<Byte>, off: nat): Word
    requires off + 4 <= |b|
  {
    b[off] as int + 256 * b[off + 1] as int + 65536 * b[off + 2] as int + 16777216 * b[off + 3] as int
  }

  lemma Digits(v: Word)
    ensures v % 256 + 256 * (v / 256 % 256) + 65536 * (v / 65536 % 256) + 16777216 * (v / 16777216) == v
  {
    var w := v / 256;
    var x := w / 256;
    assert v / 65536 == x && v / 16777216 == x / 256;
  }

  // A word read back from where it was written, whatever surrounds it.
  lemma U32OfLe32(pre: seq<Byte>, v: Word, post: seq<Byte>)
    ensures U32(pre + Le32(v) + post, |pre|) == v
  {
    var b := pre + Le32(v) + post;
    Digits(v);
    assert b[|pre|] == Le32(v)[0] && b[|pre| + 1] == Le32(v)[1] && b[|pre| + 2] == Le32(v)[2]
           && b[|pre| + 3] == Le32(v)[3];
  }

  // The field re-written is the field that was there.
  lemma Le32OfU32(b: seq<Byte>, off: nat)
    requires off + 4 <= |b|
    ensures Le32(U32(b, off)) == b[off..off + 4]
  {
    var v := U32(b, off);
    assert v / 256 == b[off + 1] as int + 256 * b[off + 2] as int + 65536 * b[off + 3] as int;
    assert v / 65536 == b[off + 2] as int + 256 * b[off + 3] as int;
  }

  // What a read sees depends only on the bytes it covers.
  lemma U32Local(a: seq<Byte>, i: nat, b: seq<Byte>, j: nat)
    requires i + 4 <= |a| && j + 4 <= |b| && a[i..i + 4] == b[j..j + 4]
    ensures U32(a, i) == U32(b, j)
  {
    var x, y := a[i..i + 4], b[j..j + 4];
    assert x[0] == y[0] && x[1] == y[1] && x[2] == y[2] && x[3] == y[3];
  }

  // `chunk` occupies `b` from `off` on: the relation every parser proof is written in.
  predicate Has(b: seq<Byte>, off: nat, chunk: seq<Byte>) {
    off + |chunk| <= |b| && b[off..off + |chunk|] == chunk
  }

  lemma HasMiddle(pre: seq<Byte>, chunk: seq<Byte>, post: seq<Byte>)
    ensures Has(pre + chunk + post, |pre|, chunk)
  {
  }

  lemma HasSplit(b: seq<Byte>, off: nat, x: seq<Byte>, y: seq<Byte>)
    requires Has(b, off, x + y)
    ensures Has(b, off, x) && Has(b, off + |x|, y)
  {
    assert (x + y)[..|x|] == x && (x + y)[|x|..] == y;
    assert b[off..off + |x|] == b[off..off + |x + y|][..|x|];
    assert b[off + |x|..off + |x + y|] == b[off..off + |x + y|][|x|..];
  }

  lemma HasLe16(b: seq<Byte>, off: nat, v: Short)
    requires Has(b, off, Le16(v))
    ensures U16(b, off) == v
  {
    var c := b[off..off + 2];
    assert c[0] == b[off] && c[1] == b[off + 1];
  }

  lemma HasLe32(b: seq<Byte>, off: nat, v: Word)
    requires Has(b, off, Le32(v))
    ensures U32(b, off) == v
  {
    U32OfLe32([], v, []);
    assert [] + Le32(v) + [] == Le32(v);
    U32Local(b, off, Le32(v), 0);
  }

  // `n` consecutive words, and the bytes that spell them.
  function Words(b: seq<Byte>, off: nat, n: nat): seq<Word>
    requires off + 4 * n <= |b|
  {
    seq(n, i requires 0 <= i < n => U32(b, off + 4 * i))
  }

  function WordBytes(ws: seq<Word>): (r: seq<Byte>)
    ensures |r| == 4 * |ws|
  {
    if ws == [] then [] else Le32(ws[0]) + WordBytes(ws[1..])
  }

  lemma {:induction false} HasWords(b: seq<Byte>, off: nat, ws: seq<Word>)
    requires Has(b, off, WordBytes(ws))
    ensures Words(b, off, |ws|) == ws
    decreases ws
  {
    if ws != [] {
      HasSplit(b, off, Le32(ws[0]), WordBytes(ws[1..]));
      HasLe32(b, off, ws[0]);
      HasWords(b, off + 4, ws[1..]);
      forall i | 0 <= i < |ws| ensures Words(b, off, |ws|)[i] == ws[i] {
        if i > 0 {
          assert Words(b, off + 4, |ws| - 1)[i - 1] == ws[1..][i - 1];
        }
      }
    }
  }

  lemma {:induction false} WordBytesSnoc(ws: seq<Word>, w: Word)
    ensures WordBytes(ws + [w]) == WordBytes(ws) + Le32(w)
  {
    if ws == [] {
      assert WordBytes([w]) == Le32(w) + [];
    } else {
      WordBytesSnoc(ws[1..], w);
      assert (ws + [w])[1..] == ws[1..] + [w];
    }
  }
}
