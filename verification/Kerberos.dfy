/**
  Tickets and the CONNECT handshake (crypto/kerberos.py and `handle_connect_ack`
  in protocols/secure_connection.py). RC4 is exclusive-or with a stream the key
  determines; HMAC (section 2 of RFC 2104) and MD5 are any functions with
  16-byte results; random bytes are parameters.
*/
module Kerberos {
  import opened Options
  import opened Bytes
  import opened Numbers
  import opened Connections

  // ---- exclusive or ---------------------------------------------------------------

  // Bit by bit, least significant first.
  function Xor(a: nat, b: nat, bits: nat): (x: nat)
    ensures x < Pow2(bits)
    decreases bits
  {
    if bits == 0 then 0 else (if a % 2 == b % 2 then 0 else 1) + 2 * Xor(a / 2, b / 2, bits - 1)
  }

  lemma {:induction false} XorTwice(a: nat, b: nat, bits: nat)
    requires a < Pow2(bits)
    ensures Xor(Xor(a, b, bits), b, bits) == a
    decreases bits
  {
    if bits > 0 {
      XorTwice(a / 2, b / 2, bits - 1);
      var rest := Xor(a / 2, b / 2, bits - 1);
      var bit := if a % 2 == b % 2 then 0 else 1;
      assert (bit + 2 * rest) % 2 == bit && (bit + 2 * rest) / 2 == rest;
    }
  }

  // Bit k of the result is set exactly if the two bits differ.
  lemma {:induction false} XorBits(a: nat, b: nat, bits: nat, k: nat)
    requires k < bits
    ensures Xor(a, b, bits) / Pow2(k) % 2 == 1 <==> a / Pow2(k) % 2 != b / Pow2(k) % 2
    decreases bits
  {
    XorHalves(a, b, bits);
    if k > 0 {
      hide Xor, Pow2;
      XorBits(a / 2, b / 2, bits - 1, k - 1);
      HalfThenShift(a, k);
      HalfThenShift(b, k);
      HalfThenShift(Xor(a, b, bits), k);
    }
  }

  lemma XorHalves(a: nat, b: nat, bits: nat)
    requires bits > 0
    ensures Xor(a, b, bits) % 2 == (if a % 2 == b % 2 then 0 else 1)
    ensures Xor(a, b, bits) / 2 == Xor(a / 2, b / 2, bits - 1)
  {
    var rest := Xor(a / 2, b / 2, bits - 1);
    var bit := if a % 2 == b % 2 then 0 else 1;
    assert (bit + 2 * rest) % 2 == bit && (bit + 2 * rest) / 2 == rest;
  }

  lemma HalfThenShift(a: nat, k: nat)
    requires k > 0
    ensures a / Pow2(k) == a / 2 / Pow2(k - 1)
  {
    DivideTwice(a, Pow2(k - 1));
  }

  lemma DivideTwice(a: nat, p: nat)
    requires p > 0
    ensures a / (2 * p) == a / 2 / p
  {
    var q, r := a / 2 / p, a / 2 % p;
    assert a / 2 == q * p + r;
    assert a == q * (2 * p) + (2 * r + a % 2);
    QuotientIs(a, 2 * p, q, 2 * r + a % 2);
  }

  function XorByte(a: Byte, b: Byte): Byte {
    assert Pow2(8) == 256 by { EightBits(); }
    Xor(a, b, 8)
  }

  lemma EightBits()
    ensures Pow2(8) == 256
  {
    assert Pow2(4) == 16;
    assert Pow2(6) == 64;
  }

  // ---- the primitives ---------------------------------------------------------------

  type Digest = d: seq<Byte> | |d| == 16 witness [0, 0, 0, 0, 0, 0, 0, 0, 0, 0, 0, 0, 0, 0, 0, 0]

  datatype Crypto = Crypto(
    stream: (Digest, nat) -> Byte,           // byte i of the RC4 key stream
    mac: (Digest, seq<Byte>) -> Digest,
    hash: seq<Byte> -> Digest,
    password: seq<Byte>)                     // KDF_PASSWORD

  function Rc4(c: Crypto, key: Digest, data: seq<Byte>): (r: seq<Byte>)
    ensures |r| == |data|
  {
    seq<Byte>(|data|, i requires 0 <= i < |data| => XorByte(data[i], c.stream(key, i)))
  }

  // Encrypting and decrypting are one function, its own inverse.
  lemma Rc4Twice(c: Crypto, key: Digest, data: seq<Byte>)
    ensures Rc4(c, key, Rc4(c, key, data)) == data
  {
    EightBits();
    forall i | 0 <= i < |data| ensures Rc4(c, key, Rc4(c, key, data))[i] == data[i] {
      XorTwice(data[i], c.stream(key, i), 8);
    }
  }

  const KDF_BASE := 65000
  const KDF_MAX := 1024

  function HashTimes(c: Crypto, n: nat, start: seq<Byte>): (r: seq<Byte>)
    ensures n > 0 ==> |r| == 16
  {
    if n == 0 then start else c.hash(HashTimes(c, n - 1, start))
  }

  function UserKey(c: Crypto, pid: nat): Digest {
    HashTimes(c, KDF_BASE + pid % KDF_MAX, c.password)
  }

  method DeriveUserKey(c: Crypto, pid: nat) returns (key: seq<Byte>)
    ensures key == UserKey(c, pid) == HashTimes(c, 65000 + pid % 1024, c.password)
  {
    var state := c.password;
    for i := 0 to KDF_BASE + pid % KDF_MAX
      invariant state == HashTimes(c, i, c.password)
    {
      state := c.hash(state);
    }
    key := state;
  }

  // ---- the envelope ------------------------------------------------------------------

  function Seal(c: Crypto, key: Digest, plain: seq<Byte>): (r: seq<Byte>)
    ensures |r| == |plain| + 16
  {
    Rc4(c, key, plain) + c.mac(key, Rc4(c, key, plain))
  }

  function Unseal(c: Crypto, key: Digest, box: seq<Byte>): Option<seq<Byte>> {
    if |box| < 16 then None
    else
      var ct, tag := box[..|box| - 16], box[|box| - 16..];
      if tag == c.mac(key, ct) then Some(Rc4(c, key, ct)) else None
  }

  // What opens under a key is exactly what was sealed under it.
  lemma UnsealIffSealed(c: Crypto, key: Digest, box: seq<Byte>, plain: seq<Byte>)
    ensures Unseal(c, key, box) == Some(plain) <==> box == Seal(c, key, plain)
  {
    hide Rc4;
    Rc4Twice(c, key, plain);
    var sealed := Seal(c, key, plain);
    assert sealed[..|sealed| - 16] == Rc4(c, key, plain);
    if Unseal(c, key, box) == Some(plain) {
      Rc4Twice(c, key, box[..|box| - 16]);
      assert box == box[..|box| - 16] + box[|box| - 16..];
    }
  }

  // ---- tickets -------------------------------------------------------------------------

  const AUTH_PID: Word := 2
  const REQUEST_TICKET_CIPHER_SIZE: nat := 98

  function InnerPlain(source: Word, session: Digest, padding: seq<Byte>): seq<Byte> {
    Le32(source) + session + padding
  }

  function Padding(noise: nat -> Byte, n: nat): (r: seq<Byte>)
    ensures |r| == n
  {
    seq<Byte>(n, noise)
  }

  // `_build_inner_ticket`; None where the size leaves no room for the header.
  function InnerTicket(c: Crypto, target: Word, source: Word, session: Digest, total: nat,
                       noise: nat -> Byte): (t: Option<seq<Byte>>)
    ensures t.Some? <==> total >= 36
    ensures t.Some? ==> |t.value| == total
  {
    if total < 36 then None
    else Some(Seal(c, UserKey(c, target), InnerPlain(source, session, Padding(noise, total - 36))))
  }

  // `_build_kerb_cipher`, the session key drawn by the caller.
  function KerbCipher(c: Crypto, client: Word, target: Word, total: nat, session: Digest,
                      noise: nat -> Byte): (r: Option<seq<Byte>>)
    requires total < 0x1_0000_0000
    ensures r.Some? <==> total >= 76
    ensures r.Some? ==> |r.value| == total
  {
    if total < 40 then None
    else match InnerTicket(c, target, client, session, total - 40, noise)
      case None => None
      case Some(ticket) => Some(Seal(c, UserKey(c, client), session + Le32(target) + Le32(total - 40) + ticket))
  }

  // What a client makes of its cipher: session key, target, ticket.
  function OpenCipher(c: Crypto, pid: Word, cipher: seq<Byte>): Option<(seq<Byte>, Word, seq<Byte>)> {
    match Unseal(c, UserKey(c, pid), cipher)
    case None => None
    case Some(p) =>
      if |p| < 24 || 24 + U32(p, 20) > |p| then None else Some((p[..16], U32(p, 16), p[24..24 + U32(p, 20)]))
  }

  lemma CipherOpens(c: Crypto, client: Word, target: Word, total: nat, session: Digest, noise: nat -> Byte)
    requires 76 <= total < 0x1_0000_0000
    ensures OpenCipher(c, client, KerbCipher(c, client, target, total, session, noise).value)
         == Some((session, target, InnerTicket(c, target, client, session, total - 40, noise).value))
  {
    hide InnerTicket, Le32, U32, UserKey, Seal, Unseal;
    var ticket := InnerTicket(c, target, client, session, total - 40, noise).value;
    var plain := session + Le32(target) + Le32(total - 40) + ticket;
    UnsealIffSealed(c, UserKey(c, client), Seal(c, UserKey(c, client), plain), plain);
    assert plain[16..20] == Le32(target) && plain[20..24] == Le32(total - 40);
    HasLe32(plain, 16, target);
    HasLe32(plain, 20, total - 40);
    assert plain[..16] == session && plain[24..24 + (total - 40)] == ticket;
  }

  // `extract_ticket_payload`: session key and the pid the ticket was made for.
  function ExtractTicket(c: Crypto, ticket: seq<Byte>, servicePid: Word): (r: Option<(Digest, Word)>) {
    match Unseal(c, UserKey(c, servicePid), ticket)
    case None => None
    case Some(p) => if |p| < 20 then None else Some((p[4..20], U32(p, 0)))
  }

  // `parse_reqd`: pid, connection id, check value.
  function ParseReqd(c: Crypto, reqd: seq<Byte>, session: Digest): Option<(Word, Word, Word)> {
    match Unseal(c, session, reqd)
    case None => None
    case Some(p) => if |p| < 12 then None else Some((U32(p, 0), U32(p, 4), U32(p, 8)))
  }

  function ReqdPlain(pid: Word, cid: Word, check: Word): seq<Byte> { Le32(pid) + Le32(cid) + Le32(check) }

  // A ticket yields a session key and a pid exactly if it was sealed for the service around them.
  lemma TicketIff(c: Crypto, ticket: seq<Byte>, service: Word, session: Digest, source: Word)
    ensures ExtractTicket(c, ticket, service) == Some((session, source))
       <==> exists padding :: ticket == Seal(c, UserKey(c, service), InnerPlain(source, session, padding))
  {
    hide UserKey, U32, Seal, Unseal;
    var key := UserKey(c, service);
    if ExtractTicket(c, ticket, service) == Some((session, source)) {
      var p := Unseal(c, key, ticket).value;
      UnsealIffSealed(c, key, ticket, p);
      Le32OfU32(p, 0);
      assert p == InnerPlain(source, session, p[20..]);
    }
    if padding :| ticket == Seal(c, key, InnerPlain(source, session, padding)) {
      var p := InnerPlain(source, session, padding);
      UnsealIffSealed(c, key, ticket, p);
      assert p[0..4] == Le32(source) && p[4..20] == session;
      HasLe32(p, 0, source);
    }
  }

  lemma ReqdIff(c: Crypto, reqd: seq<Byte>, session: Digest, pid: Word, cid: Word, check: Word)
    ensures ParseReqd(c, reqd, session) == Some((pid, cid, check))
       <==> exists rest :: reqd == Seal(c, session, ReqdPlain(pid, cid, check) + rest)
  {
    hide U32, Seal, Unseal;
    if ParseReqd(c, reqd, session) == Some((pid, cid, check)) {
      var p := Unseal(c, session, reqd).value;
      UnsealIffSealed(c, session, reqd, p);
      Le32OfU32(p, 0);
      Le32OfU32(p, 4);
      Le32OfU32(p, 8);
      assert p == ReqdPlain(pid, cid, check) + p[12..];
    }
    if rest :| reqd == Seal(c, session, ReqdPlain(pid, cid, check) + rest) {
      var p := ReqdPlain(pid, cid, check) + rest;
      UnsealIffSealed(c, session, reqd, p);
      assert p[0..4] == Le32(pid) && p[4..8] == Le32(cid) && p[8..12] == Le32(check);
      HasLe32(p, 0, pid);
      HasLe32(p, 4, cid);
      HasLe32(p, 8, check);
    }
  }

  // `build_connect_ack_token`: in the clear, the session key plays no part.
  function AckToken(check: Word): seq<Byte> { Le32(4) + Le32((check + 1) % 0x1_0000_0000) }

  // ---- the CONNECT payload ------------------------------------------------------------

  // The two length-prefixed parts; None where a length does not fit.
  function SplitConnect(incoming: seq<Byte>): Option<(seq<Byte>, seq<Byte>)> {
    if |incoming| < 8 then None
    else
      var tsize: nat := U32(incoming, 0);
      if tsize == 0 || 4 + tsize + 4 > |incoming| then None
      else
        var rsize: nat := U32(incoming, 4 + tsize);
        if 8 + tsize + rsize > |incoming| then None
        else Some((incoming[4..4 + tsize], incoming[8 + tsize..8 + tsize + rsize]))
  }

  function ConnectBytes(ticket: seq<Byte>, reqd: seq<Byte>): seq<Byte>
    requires |ticket| < 0x1_0000_0000 && |reqd| < 0x1_0000_0000
  {
    Le32(|ticket|) + (ticket + (Le32(|reqd|) + reqd))
  }

  lemma Rejoined(b: seq<Byte>, t: nat, r: nat)
    requires 8 + t + r <= |b|
    ensures b == b[0..4] + (b[4..4 + t] + (b[4 + t..8 + t] + b[8 + t..8 + t + r])) + b[8 + t + r..]
  {
  }

  // The split finds two parts exactly when the payload is their concatenation behind their lengths, then anything.
  lemma SplitIff(incoming: seq<Byte>, ticket: seq<Byte>, reqd: seq<Byte>)
    requires |ticket| < 0x1_0000_0000 && |reqd| < 0x1_0000_0000
    ensures SplitConnect(incoming) == Some((ticket, reqd))
       <==> ticket != [] && exists junk :: incoming == ConnectBytes(ticket, reqd) + junk
  {
    hide U32, Le32;
    if SplitConnect(incoming) == Some((ticket, reqd)) {
      Le32OfU32(incoming, 0);
      Le32OfU32(incoming, 4 + |ticket|);
      Rejoined(incoming, |ticket|, |reqd|);
      assert incoming == ConnectBytes(ticket, reqd) + incoming[8 + |ticket| + |reqd|..];
    }
    if junk :| ticket != [] && incoming == ConnectBytes(ticket, reqd) + junk {
      assert incoming[0..4] == Le32(|ticket|);
      HasLe32(incoming, 0, |ticket|);
      assert incoming[4 + |ticket|..8 + |ticket|] == Le32(|reqd|);
      HasLe32(incoming, 4 + |ticket|, |reqd|);
      assert incoming[4..4 + |ticket|] == ticket && incoming[8 + |ticket|..8 + |ticket| + |reqd|] == reqd;
    }
  }

  datatype Handshake = Handshake(session: Digest, pid: Word, check: Word)

  // What a CONNECT payload proves; None where the handler raises.
  function Verify(c: Crypto, incoming: seq<Byte>): Option<Handshake> {
    match SplitConnect(incoming)
    case None => None
    case Some((ticket, reqd)) =>
      match ExtractTicket(c, ticket, AUTH_PID)
      case None => None
      case Some((session, source)) =>
        match ParseReqd(c, reqd, session)
        case None => None
        case Some((_, _, check)) => Some(Handshake(session, source, check))
  }

  // `handle_connect_ack`: the connection is touched only after both parts have been verified.
  method HandleConnectAck(c: Crypto, conn: Connection, incoming: seq<Byte>) returns (token: Option<seq<Byte>>)
    modifies conn`sessionKey, conn`userPid
    ensures match Verify(c, incoming)
            case None => token == None && unchanged(conn)
            case Some(h) => token == Some(AckToken(h.check)) && conn.sessionKey == h.session && conn.userPid == h.pid
  {
    hide ExtractTicket, ParseReqd, AckToken, U32;
    if |incoming| < 8 { return None; }
    var tsize: nat := U32(incoming, 0);
    if tsize == 0 || 4 + tsize + 4 > |incoming| { return None; }
    var ticket := incoming[4..4 + tsize];
    var rsize: nat := U32(incoming, 4 + tsize);
    var reqdOff := 4 + tsize + 4;
    if reqdOff + rsize > |incoming| { return None; }
    var reqd := incoming[reqdOff..reqdOff + rsize];
    var payload := ExtractTicket(c, ticket, AUTH_PID);
    if payload.None? { return None; }
    var parsed := ParseReqd(c, reqd, payload.value.0);
    if parsed.None? { return None; }
    conn.sessionKey := payload.value.0;
    conn.userPid := payload.value.1;
    token := Some(AckToken(parsed.value.2));
  }

  // A handshake succeeds exactly for a payload made of a ticket sealed for the authentication service around
  // that session key and pid, and a request sealed under that session key with that check value.
  lemma VerifyIff(c: Crypto, incoming: seq<Byte>, h: Handshake)
    ensures Verify(c, incoming) == Some(h)
       <==> exists ticket, reqd, pid, cid ::
              && SplitConnect(incoming) == Some((ticket, reqd))
              && SealedTicket(c, ticket, h.session, h.pid) && SealedReqd(c, reqd, h.session, pid, cid, h.check)
  {
    hide SplitConnect, ExtractTicket, ParseReqd, SealedTicket, SealedReqd;
    if Verify(c, incoming) == Some(h) {
      var (ticket, reqd) := SplitConnect(incoming).value;
      var (pid, cid, check) := ParseReqd(c, reqd, h.session).value;
      SealedTicketIff(c, ticket, h.session, h.pid);
      SealedReqdIff(c, reqd, h.session, pid, cid, check);
    }
    if ticket, reqd, pid, cid :| (SplitConnect(incoming) == Some((ticket, reqd))
         && SealedTicket(c, ticket, h.session, h.pid) && SealedReqd(c, reqd, h.session, pid, cid, h.check)) {
      SealedTicketIff(c, ticket, h.session, h.pid);
      SealedReqdIff(c, reqd, h.session, pid, cid, h.check);
    }
  }

  ghost predicate SealedTicket(c: Crypto, ticket: seq<Byte>, session: Digest, source: Word) {
    exists padding :: ticket == Seal(c, UserKey(c, AUTH_PID), InnerPlain(source, session, padding))
  }

  ghost predicate SealedReqd(c: Crypto, reqd: seq<Byte>, session: Digest, pid: Word, cid: Word, check: Word) {
    exists rest :: reqd == Seal(c, session, ReqdPlain(pid, cid, check) + rest)
  }

  lemma SealedTicketIff(c: Crypto, ticket: seq<Byte>, session: Digest, source: Word)
    ensures SealedTicket(c, ticket, session, source) <==> ExtractTicket(c, ticket, AUTH_PID) == Some((session, source))
  {
    hide UserKey, InnerPlain, ExtractTicket, Seal;
    TicketIff(c, ticket, AUTH_PID, session, source);
  }

  lemma SealedReqdIff(c: Crypto, reqd: seq<Byte>, session: Digest, pid: Word, cid: Word, check: Word)
    ensures SealedReqd(c, reqd, session, pid, cid, check) <==> ParseReqd(c, reqd, session) == Some((pid, cid, check))
  {
    hide ReqdPlain, ParseReqd, Seal;
    ReqdIff(c, reqd, session, pid, cid, check);
  }

  // End to end: for every client, session key, padding, connection id and check value, a client that opens its
  // 98-byte cipher and sends the 58-byte ticket with a 28-byte request (naming whatever pid it likes) makes the
  // server accept exactly its session key and the ticket's pid and answer [4][check + 1].
  lemma TicketToConnect(c: Crypto, client: Word, session: Digest, noise: nat -> Byte, claimed: Word, cid: Word,
                        check: Word)
    ensures var cipher := KerbCipher(c, client, AUTH_PID, REQUEST_TICKET_CIPHER_SIZE, session, noise);
            cipher.Some? && |cipher.value| == 98 && OpenCipher(c, client, cipher.value).Some?
            && var (key, target, ticket) := OpenCipher(c, client, cipher.value).value;
               key == session && target == AUTH_PID && |ticket| == 58
               && var reqd := Seal(c, key, ReqdPlain(claimed, cid, check));
                  |reqd| == 28 && Verify(c, ConnectBytes(ticket, reqd)) == Some(Handshake(session, client, check))
  {
    hide KerbCipher, OpenCipher, InnerTicket, Verify, SplitConnect, ExtractTicket, ParseReqd, ConnectBytes, Seal, U32,
         UserKey;
    CipherOpens(c, client, AUTH_PID, REQUEST_TICKET_CIPHER_SIZE, session, noise);
    var ticket := InnerTicket(c, AUTH_PID, client, session, 58, noise).value;
    var reqd := Seal(c, session, ReqdPlain(claimed, cid, check));
    HonestVerify(c, client, session, noise, claimed, cid, check);
  }

  lemma HonestVerify(c: Crypto, client: Word, session: Digest, noise: nat -> Byte, claimed: Word, cid: Word,
                     check: Word)
    ensures var ticket := InnerTicket(c, AUTH_PID, client, session, 58, noise).value;
            var reqd := Seal(c, session, ReqdPlain(claimed, cid, check));
            Verify(c, ConnectBytes(ticket, reqd)) == Some(Handshake(session, client, check))
  {
    hide SplitConnect, ExtractTicket, ParseReqd, ConnectBytes, Seal, UserKey, InnerPlain, ReqdPlain;
    var ticket := InnerTicket(c, AUTH_PID, client, session, 58, noise).value;
    var reqd := Seal(c, session, ReqdPlain(claimed, cid, check));
    assert |ReqdPlain(claimed, cid, check)| == 12 by { ReqdSize(claimed, cid, check); }
    assert ConnectBytes(ticket, reqd) + [] == ConnectBytes(ticket, reqd);
    SplitIff(ConnectBytes(ticket, reqd), ticket, reqd);
    assert ticket == Seal(c, UserKey(c, AUTH_PID), InnerPlain(client, session, Padding(noise, 22)));
    TicketIff(c, ticket, AUTH_PID, session, client);
    assert ReqdPlain(claimed, cid, check) + [] == ReqdPlain(claimed, cid, check);
    assert reqd == Seal(c, session, ReqdPlain(claimed, cid, check) + []);
    ReqdIff(c, reqd, session, claimed, cid, check);
  }

  lemma ReqdSize(pid: Word, cid: Word, check: Word)
    ensures |ReqdPlain(pid, cid, check)| == 12
  {
  }
}
