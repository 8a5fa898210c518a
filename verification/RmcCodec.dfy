/**
  RMC framing (rmc/codec.py): the three message kinds, `encode` and `decode`.
  A raised exception is a `None`.
*/
module RmcCodec {
  import opened Options
  import opened Bytes

  // Fields are unbounded integers, as in the source; `Encode` refuses what `struct.pack` refuses.
  datatype Message =
    | Request(proto: nat, callId: nat, method_: nat, params: seq<Byte>)
    | ResponseOk(proto: nat, callId: nat, method_: nat, ret: seq<Byte>)
    | ResponseError(proto: nat, callId: nat, errorCode: nat)

  const REQUEST_BIT := 0x80

  predicate Bit15(v: nat) { v / 0x8000 % 2 == 1 }

  function SetBit15(v: nat): nat { if Bit15(v) then v else v + 0x8000 }

  function ClearBit15(v: Word): Word { if Bit15(v) then v - 0x8000 else v }

  function Fits32(v: nat): bool { v < 0x1_0000_0000 }

  // `proto | 0x80`, refused by `bytes([...])` above 255.
  function RequestProtoByte(proto: nat): Option<Byte> {
    if proto < 0x80 then Some(proto + 0x80)
    else if proto < 0x100 then Some(proto)
    else None
  }

  function Framed(body: seq<Byte>): Option<seq<Byte>> {
    if Fits32(|body|) then Some(Le32(|body|) + body) else None
  }

  function Encode(m: Message): Option<seq<Byte>> {
    match m
    case Request(proto, callId, method_, params) =>
      if RequestProtoByte(proto).None? || !Fits32(callId) || !Fits32(method_) then None
      else Framed([RequestProtoByte(proto).value] + Le32(callId) + Le32(method_) + params)
    case ResponseOk(proto, callId, method_, ret) =>
      if !Fits32(callId) || !Fits32(SetBit15(method_)) then None
      else Framed([proto % 0x80, 1] + Le32(callId) + Le32(SetBit15(method_)) + ret)
    case ResponseError(proto, callId, errorCode) =>
      if !Fits32(callId) || !Fits32(errorCode) then None
      else Framed([proto % 0x80, 0] + Le32(errorCode) + Le32(callId))
  }

  function Decode(body: seq<Byte>): Option<Message> {
    if |body| < 5 then None
    else if U32(body, 0) + 4 != |body| then None
    else
      var proto := body[4] % 0x80;
      if body[4] >= REQUEST_BIT then
        if |body| < 13 then None
        else Some(Request(proto, U32(body, 5), U32(body, 9), body[13..]))
      else if |body| < 6 then None
      else if body[5] != 0 then
        if |body| < 14 then None
        else Some(ResponseOk(proto, U32(body, 6), ClearBit15(U32(body, 10)), body[14..]))
      else
        if |body| < 14 then None
        else Some(ResponseError(proto, U32(body, 10), U32(body, 6)))
  }

  // The messages whose fields survive the wire.
  predicate InRange(m: Message) {
    && m.proto < 0x80 && Fits32(m.callId)
    && match m
       case Request(_, _, method_, params) => Fits32(method_) && Fits32(9 + |params|)
       case ResponseOk(_, _, method_, ret) => Fits32(method_) && !Bit15(method_) && Fits32(10 + |ret|)
       case ResponseError(_, _, errorCode) => Fits32(errorCode)
  }

  // The frames `Encode` can produce: responses in their one written spelling.
  predicate Canonical(body: seq<Byte>)
    requires Decode(body).Some?
  {
    match Decode(body).value
    case Request(_, _, _, _) => true
    case ResponseOk(_, _, _, _) => body[5] == 1 && Bit15(U32(body, 10))
    case ResponseError(_, _, _) => |body| == 14
  }

  // The frame around a head of one or two bytes, two words and a tail.
  ghost function Frame(head: seq<Byte>, a: Word, b: Word, tail: seq<Byte>): seq<Byte>
    requires Fits32(|head| + 8 + |tail|)
  {
    Le32(|head| + 8 + |tail|) + (head + Le32(a) + Le32(b) + tail)
  }

  lemma FrameFields(head: seq<Byte>, a: Word, b: Word, tail: seq<Byte>)
    requires Fits32(|head| + 8 + |tail|)
    ensures var f := Frame(head, a, b, tail); var n := |head|;
            && |f| == 12 + n + |tail| && U32(f, 0) + 4 == |f|
            && f[4..4 + n] == head && U32(f, 4 + n) == a && U32(f, 8 + n) == b && f[12 + n..] == tail
  {
    var f := Frame(head, a, b, tail);
    var size := Le32(|head| + 8 + |tail|);
    U32OfLe32([], |head| + 8 + |tail|, head + Le32(a) + Le32(b) + tail);
    assert f == [] + size + (head + Le32(a) + Le32(b) + tail);
    U32OfLe32(size + head, a, Le32(b) + tail);
    assert f == (size + head) + Le32(a) + (Le32(b) + tail);
    U32OfLe32(size + head + Le32(a), b, tail);
    assert f == (size + head + Le32(a)) + Le32(b) + tail;
  }

  // What `Decode` makes of a frame whose head is a request's or a response's.
  lemma DecodeRequestFrame(head: Byte, callId: Word, method_: Word, params: seq<Byte>)
    requires head >= REQUEST_BIT && Fits32(9 + |params|)
    ensures Decode(Frame([head], callId, method_, params)) == Some(Request(head % 0x80, callId, method_, params))
  {
    FrameFields([head], callId, method_, params);
    assert Frame([head], callId, method_, params)[4..5] == [head];
  }

  lemma DecodeResponseFrame(proto: Byte, success: Byte, a: Word, b: Word, ret: seq<Byte>)
    requires proto < REQUEST_BIT && Fits32(10 + |ret|)
    ensures Decode(Frame([proto, success], a, b, ret))
         == Some(if success != 0 then ResponseOk(proto, a, ClearBit15(b), ret) else ResponseError(proto, b, a))
  {
    FrameFields([proto, success], a, b, ret);
    var f := Frame([proto, success], a, b, ret);
    assert f[4..6] == [proto, success];
    assert f[4] == f[4..6][0] && f[5] == f[4..6][1];
  }

  lemma SetThenClear(v: nat)
    requires Fits32(v)
    ensures Fits32(SetBit15(v))
    ensures ClearBit15(SetBit15(v)) == v <==> !Bit15(v)
  {
  }

  lemma ClearThenSet(v: Word)
    ensures SetBit15(ClearBit15(v)) == v <==> Bit15(v)
  {
  }

  // `decode(encode(m)) == m` for all three kinds, exactly on the messages in range.
  lemma DecodeEncode(m: Message)
    ensures (Encode(m).Some? && Decode(Encode(m).value) == Some(m)) <==> InRange(m)
  {
    match m
    case Request(proto, callId, method_, params) => DecodeEncodeRequest(proto, callId, method_, params);
    case ResponseOk(proto, callId, method_, ret) => DecodeEncodeOk(proto, callId, method_, ret);
    case ResponseError(proto, callId, errorCode) => DecodeEncodeError(proto, callId, errorCode);
  }

  lemma DecodeEncodeRequest(proto: nat, callId: nat, method_: nat, params: seq<Byte>)
    ensures var m := Request(proto, callId, method_, params);
            (Encode(m).Some? && Decode(Encode(m).value) == Some(m)) <==> InRange(m)
  {
    var m := Request(proto, callId, method_, params);
    if RequestProtoByte(proto).Some? && Fits32(callId) && Fits32(method_) && Fits32(9 + |params|) {
      DecodeRequestFrame(RequestProtoByte(proto).value, callId, method_, params);
      assert Encode(m) == Some(Frame([RequestProtoByte(proto).value], callId, method_, params));
    } else {
      assert Encode(m).None?;
    }
  }

  lemma DecodeEncodeOk(proto: nat, callId: nat, method_: nat, ret: seq<Byte>)
    ensures var m := ResponseOk(proto, callId, method_, ret);
            (Encode(m).Some? && Decode(Encode(m).value) == Some(m)) <==> InRange(m)
  {
    hide Decode;
    var m := ResponseOk(proto, callId, method_, ret);
    if Fits32(callId) && Fits32(method_) && Fits32(10 + |ret|) {
      SetThenClear(method_);
      DecodeResponseFrame(proto % 0x80, 1, callId, SetBit15(method_), ret);
      assert Encode(m) == Some(Frame([proto % 0x80, 1], callId, SetBit15(method_), ret));
    } else {
      assert Encode(m).None?;
    }
  }

  lemma OkFrame(proto: nat, callId: Word, method_: nat, ret: seq<Byte>)
    requires Fits32(SetBit15(method_)) && Fits32(10 + |ret|)
    ensures Encode(ResponseOk(proto, callId, method_, ret))
         == Some(Frame([proto % 0x80, 1], callId, SetBit15(method_), ret))
  {
  }

  lemma ErrorFrame(proto: nat, callId: Word, errorCode: Word)
    ensures Encode(ResponseError(proto, callId, errorCode)) == Some(Frame([proto % 0x80, 0], errorCode, callId, []))
  {
    var head := [proto % 0x80, 0] + Le32(errorCode) + Le32(callId);
    assert head + [] == head;
  }

  lemma DecodeEncodeError(proto: nat, callId: nat, errorCode: nat)
    ensures var m := ResponseError(proto, callId, errorCode);
            (Encode(m).Some? && Decode(Encode(m).value) == Some(m)) <==> InRange(m)
  {
    var m := ResponseError(proto, callId, errorCode);
    if Fits32(callId) && Fits32(errorCode) {
      DecodeResponseFrame(proto % 0x80, 0, errorCode, callId, []);
      ErrorFrame(proto, callId, errorCode);
    } else {
      assert Encode(m).None?;
    }
  }

  // A frame is the frame of the fields it carries.
  lemma FrameOfFields(body: seq<Byte>, n: nat)
    requires 12 + n <= |body| && U32(body, 0) + 4 == |body|
    ensures body == Frame(body[4..4 + n], U32(body, 4 + n), U32(body, 8 + n), body[12 + n..])
  {
    hide U32, Le32;
    Le32OfU32(body, 0);
    Le32OfU32(body, 4 + n);
    Le32OfU32(body, 8 + n);
    assert body == body[0..4] + (body[4..4 + n] + body[4 + n..8 + n] + body[8 + n..12 + n] + body[12 + n..]);
  }

  // `encode(decode(body)) == body` on every request, and on a response exactly when it is canonical.
  lemma EncodeDecode(body: seq<Byte>)
    requires Decode(body).Some?
    ensures Encode(Decode(body).value) == Some(body) <==> Canonical(body)
  {
    match Decode(body).value
    case Request(proto, callId, method_, params) =>
      FrameOfFields(body, 1);
      assert body[4..5] == [proto + 0x80];
    case ResponseOk(proto, callId, method_, ret) =>
      EncodeDecodeOk(body);
    case ResponseError(proto, callId, errorCode) =>
      EncodeDecodeError(body);
  }

  lemma FrameInjective(head: seq<Byte>, a: Word, b: Word, head': seq<Byte>, b': Word, tail: seq<Byte>)
    requires |head| == |head'| && Fits32(|head| + 8 + |tail|)
    ensures Frame(head, a, b, tail) == Frame(head', a, b', tail) <==> head == head' && b == b'
  {
    FrameFields(head, a, b, tail);
    FrameFields(head', a, b', tail);
  }

  lemma EncodeDecodeOk(body: seq<Byte>)
    requires Decode(body).Some? && Decode(body).value.ResponseOk?
    ensures Encode(Decode(body).value) == Some(body) <==> Canonical(body)
  {
    hide Frame, Le32, U32;
    var proto, a, raw, ret := body[4], U32(body, 6), U32(body, 10), body[14..];
    FrameOfFields(body, 2);
    assert body[4..6] == [proto, body[5]];
    ClearThenSet(raw);
    SetThenClear(ClearBit15(raw));
    var again := SetBit15(ClearBit15(raw));
    assert Encode(Decode(body).value) == Some(Frame([proto, 1], a, again, ret)) by {
      OkFrame(proto, a, ClearBit15(raw), ret);
    }
    FrameInjective([proto, body[5]], a, raw, [proto, 1], again, ret);
  }

  lemma EncodeDecodeError(body: seq<Byte>)
    requires Decode(body).Some? && Decode(body).value.ResponseError?
    ensures Encode(Decode(body).value) == Some(body) <==> Canonical(body)
  {
    FrameOfFields(body, 2);
    var m := Decode(body).value;
    assert body[4..6] == [m.proto, 0];
    ErrorFrame(m.proto, m.callId, m.errorCode);
    FrameFields([m.proto, 0], m.errorCode, m.callId, []);
  }

  // No two messages in range, of whatever kinds, share a frame.
  lemma EncodeInjective(m1: Message, m2: Message)
    requires InRange(m1) && InRange(m2) && Encode(m1) == Encode(m2)
    ensures m1 == m2
  {
    DecodeEncode(m1);
    DecodeEncode(m2);
  }
}
