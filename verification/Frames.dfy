/** libkg/tgtransport: encrypted frames, as they are laid out for sending and as they are tested
    on arrival, and the ring of ids that were let in. */
module Frames {
  import opened Integers
  import opened Modular
  import opened Bytes
  import opened Codec
  import opened Streams

  const HEADER_LENGTH := 32
  const RING_SIZE := 64
  const BAD_PACKET_LIMIT := 3

  // --- padding ------------------------------------------------------------------------------

  /** C++'s remainder, which has the sign of the dividend. */
  function Remainder(a: int, b: int): int
    requires b > 0
  {
    if a >= 0 then a % b else -((-a) % b)
  }

  /** randomInt over one 32-bit draw. The absolute value of the least integer is itself. */
  function RandomInt(draw: int32, lowerThan: int32): int {
    if lowerThan < 1 then 0
    else
      var magnitude := if draw < 0 then -(draw as int) else draw as int;
      Remainder(Wrap32(magnitude), lowerThan)
  }

  function PaddingLength(bodyLength: nat, draw: int32): int {
    Remainder(0x7FFF_FFF0 - bodyLength, 16) + (RandomInt(draw, 14) + 2) * 16
  }

  lemma PaddingIsWhole(bodyLength: nat, draw: int32)
    requires bodyLength < 0x8000_0000
    ensures (HEADER_LENGTH + bodyLength + PaddingLength(bodyLength, draw)) % 16 == 0
  {
    hide RandomInt;
    var r := RandomInt(draw, 14);
    if bodyLength <= 0x7FFF_FFF0 {
      var q := (0x7FFF_FFF0 - bodyLength) / 16;
      Sixteens(HEADER_LENGTH + bodyLength + PaddingLength(bodyLength, draw), 2 + 0x7FF_FFFF - q + r + 2);
    } else {
      Sixteens(HEADER_LENGTH + bodyLength + PaddingLength(bodyLength, draw), 2 + 0x7FF_FFFF + r + 2);
    }
  }

  lemma Sixteens(n: int, m: int)
    requires n == 16 * m
    ensures n % 16 == 0
  {
  }

  /** For every draw but one the padding is 32..255 bytes. The least integer draws minus two, and
      then there is only the odd part of a block. */
  lemma PaddingIsEnoughIff(bodyLength: nat, draw: int32)
    requires bodyLength <= 0x7FFF_FFF0
    ensures 32 <= PaddingLength(bodyLength, draw) <= 255 <==> draw != -0x8000_0000
    ensures 12 <= PaddingLength(bodyLength, draw) <= 1024 <==>
              draw != -0x8000_0000 || (0x7FFF_FFF0 - bodyLength) % 16 >= 12
  {
  }

  // --- layout -------------------------------------------------------------------------------

  /** The plaintext of a frame. */
  function Layout(salt: int64, session: int64, id: int64, seqno: int32, body: bytes, padding: bytes): bytes {
    Little(salt, 8)
    + (Little(session, 8) + (Little(id, 8) + (Little(seqno, 4) + (Little(|body|, 4) + (body + padding)))))
  }

  /** The key: its id, the message key of a plaintext, and the two ciphers under a message key. */
  datatype Keys = Keys(
    id: int64,
    messageKey: bytes -> bytes,
    encrypt: (bytes, bytes) -> bytes,
    decrypt: (bytes, bytes) -> bytes)

  ghost predicate Sound(k: Keys) {
    && k.id != 0
    && (forall m: bytes {:trigger k.messageKey(m)} :: |k.messageKey(m)| == 16)
    && (forall m: bytes, key: bytes {:trigger k.encrypt(m, key)} ::
          |k.encrypt(m, key)| == |m| && (|m| % 16 == 0 ==> k.decrypt(k.encrypt(m, key), key) == m))
  }

  function Envelope(k: Keys, plain: bytes): bytes {
    Little(k.id, 8) + (k.messageKey(plain) + k.encrypt(plain, k.messageKey(plain)))
  }

  // --- arrival ------------------------------------------------------------------------------

  datatype Reason =
    | NotAMessage | PlaintextAfterHandshake | TruncatedHeader | PlainLength
    | WrongKey | CipherLength | NotDecrypted | WrongMessageKey
    | WrongSession | EvenId | PaddingRange | Replayed

  datatype Verdict = Accepted(id: int64, body: bytes) | Rejected(reason: Reason)

  /** The state of the gate: which ids are in the ring, and how many packets in a row were bad. */
  datatype Gate = Gate(seen: seq<int64>, bad: nat, resets: nat)

  function PlainMessage(message: bytes, handshaking: bool): Verdict {
    var (_, r0) := TakeInt(message, 8);
    var (id, r1) := TakeInt(r0, 8);
    var (length, r2) := TakeInt(r1, 4);
    if !handshaking then Rejected(PlaintextAfterHandshake)
    else if |message| < 20 then Rejected(TruncatedHeader)
    else if length < 0 || length > |message| - 20 then Rejected(PlainLength)
    else Accepted(Wrap64(id), Front(r2, length))
  }

  /** The tests on what was decrypted, in their order. */
  function Inside(plain: bytes, session: int64, seen: seq<int64>): Verdict {
    var (_, r0) := TakeInt(plain, 8);
    var (remoteSession, r1) := TakeInt(r0, 8);
    var (id, r2) := TakeInt(r1, 8);
    var (_, r3) := TakeInt(r2, 4);
    var (length, r4) := TakeInt(r3, 4);
    Tested(remoteSession, id, length, r4, |plain|, session, seen)
  }

  function Tested(remoteSession: int, id: int, length: int, rest: bytes, size: nat, session: int64,
                  seen: seq<int64>): Verdict {
    var padding := size - HEADER_LENGTH - length;
    if remoteSession != session then Rejected(WrongSession)
    else if id % 2 == 0 then Rejected(EvenId)
    else if length < 0 || length > size - HEADER_LENGTH || padding < 12 || padding > 1024 then Rejected(PaddingRange)
    else if Wrap64(id) in seen then Rejected(Replayed)
    else Accepted(Wrap64(id), Front(rest, length))
  }

  function Encrypted(message: bytes, k: Keys, hasKey: bool, session: int64, seen: seq<int64>): Verdict {
    var (keyId, r) := TakeInt(message, 8);
    if !hasKey || keyId != k.id then Rejected(WrongKey)
    else if |message| < 24 + HEADER_LENGTH + 12 || (|message| - 24) % 16 != 0 then Rejected(CipherLength)
    else
      var messageKey := r[..16];
      var plain := k.decrypt(r[16..], messageKey);
      if plain == [] then Rejected(NotDecrypted)
      else if k.messageKey(plain) != messageKey then Rejected(WrongMessageKey)
      else Inside(plain, session, seen)
  }

  function Judge(message: bytes, k: Keys, hasKey: bool, handshaking: bool, session: int64, seen: seq<int64>): Verdict {
    if |message| <= 4 then Rejected(NotAMessage)
    else if TakeInt(message, 8).0 == 0 then PlainMessage(message, handshaking)
    else Encrypted(message, k, hasKey, session, seen)
  }

  function Push(seen: seq<int64>, id: int64): seq<int64> {
    var longer := seen + [id];
    if |longer| > RING_SIZE then longer[1..] else longer
  }

  predicate Counted(r: Reason) {
    r in {WrongKey, CipherLength, NotDecrypted, WrongMessageKey, WrongSession, EvenId, PaddingRange}
  }

  function CountBad(g: Gate): Gate {
    if g.bad + 1 < BAD_PACKET_LIMIT then g.(bad := g.bad + 1) else g.(bad := 0, resets := g.resets + 1)
  }

  /** What a verdict does to the gate: a plaintext message passes it by. */
  function After(g: Gate, v: Verdict, encrypted: bool): Gate {
    if v.Rejected? then (if Counted(v.reason) then CountBad(g) else g)
    else if encrypted then g.(seen := Push(g.seen, v.id), bad := 0)
    else g
  }

  // --- what the gate lets in ----------------------------------------------------------------

  lemma LayoutReads(salt: int64, session: int64, id: int64, seqno: int32, body: bytes, padding: bytes)
    requires |body| < 0x8000_0000
    ensures var plain := Layout(salt, session, id, seqno, body, padding);
            var (s, r0) := TakeInt(plain, 8);
            var (t, r1) := TakeInt(r0, 8);
            var (i, r2) := TakeInt(r1, 8);
            var (n, r3) := TakeInt(r2, 4);
            var (l, r4) := TakeInt(r3, 4);
            s == salt && t == session && i == id && n == seqno && l == |body| && r4 == body + padding
            && |plain| == HEADER_LENGTH + |body| + |padding|
  {
    hide Pow, Little, TakeInt;
    WidthBounds();
    var r3 := Little(|body|, 4) + (body + padding);
    var r2 := Little(seqno, 4) + r3;
    var r1 := Little(id, 8) + r2;
    var r0 := Little(session, 8) + r1;
    TakeIntBack(salt, 8, r0);
    TakeIntBack(session, 8, r1);
    TakeIntBack(id, 8, r2);
    TakeIntBack(seqno, 4, r3);
    TakeIntBack(|body|, 4, body + padding);
  }

  /** What the tests make of a plaintext laid out with these fields. */
  lemma InsideIff(salt: int64, session: int64, id: int64, seqno: int32, body: bytes, padding: bytes,
                  here: int64, seen: seq<int64>)
    requires |body| < 0x8000_0000
    ensures var v := Inside(Layout(salt, session, id, seqno, body, padding), here, seen);
            && (v == Accepted(id, body) <==>
                  session == here && id % 2 == 1 && 12 <= |padding| <= 1024 && id !in seen)
            && (v.Accepted? ==> v == Accepted(id, body))
  {
    hide Pow, Little, TakeInt, Layout;
    LayoutReads(salt, session, id, seqno, body, padding);
    assert (body + padding)[..|body|] == body;
  }

  /** A frame made with the shared key is let in exactly when it is a whole number of blocks,
      padded within the limits, of this session, with the server's kind of id, and not seen
      before; and then the body read is the body sent. */
  lemma FrameIsAcceptedIff(k: Keys, salt: int64, session: int64, id: int64, seqno: int32, body: bytes,
                           padding: bytes, handshaking: bool, here: int64, seen: seq<int64>)
    requires Sound(k) && |body| < 0x8000_0000
    ensures var v := Judge(Envelope(k, Layout(salt, session, id, seqno, body, padding)),
                           k, true, handshaking, here, seen);
            && (v == Accepted(id, body) <==>
                  && (HEADER_LENGTH + |body| + |padding|) % 16 == 0
                  && session == here && id % 2 == 1 && 12 <= |padding| <= 1024 && id !in seen)
            && (v.Accepted? ==> v == Accepted(id, body))
  {
    hide Pow, Little, TakeInt, Layout, Inside;
    var plain := Layout(salt, session, id, seqno, body, padding);
    LayoutReads(salt, session, id, seqno, body, padding);
    InsideIff(salt, session, id, seqno, body, padding, here, seen);
    WidthBounds();
    var key := k.messageKey(plain);
    var sealed := key + k.encrypt(plain, key);
    TakeIntBack(k.id, 8, sealed);
    assert sealed[..16] == key && sealed[16..] == k.encrypt(plain, key);
  }

  /** What has to stand in the bytes of an encrypted message: the id of the key; the message key
      of what the rest decrypts to; and in that, after eight bytes of salt, this session, an odd
      id not seen before, four bytes of number, the length of the body, the body, and padding
      within the limits. */
  ghost predicate Genuine(message: bytes, k: Keys, here: int64, seen: seq<int64>, id: int64, body: bytes) {
    && |message| >= 24 + HEADER_LENGTH + 12 && (|message| - 24) % 16 == 0
    && message[..8] == Little(k.id, 8)
    && (var plain := k.decrypt(message[24..], message[8..24]);
        && message[8..24] == k.messageKey(plain)
        && |body| < 0x8000_0000 && HEADER_LENGTH + |body| + 12 <= |plain| <= HEADER_LENGTH + |body| + 1024
        && plain[8..16] == Little(here, 8)
        && plain[16..24] == Little(id, 8) && id % 2 == 1 && id !in seen
        && plain[28..32] == Little(|body|, 4)
        && plain[32..32 + |body|] == body)
  }

  /** Of all byte arrays these and no others are let in under a key. */
  lemma AcceptedIffGenuine(message: bytes, k: Keys, hasKey: bool, handshaking: bool, here: int64, seen: seq<int64>,
                           id: int64, body: bytes)
    requires TakeInt(message, 8).0 != 0
    ensures Judge(message, k, hasKey, handshaking, here, seen) == Accepted(id, body) <==>
              hasKey && Genuine(message, k, here, seen, id, body)
  {
    hide Pow, Little, TakeInt, Inside;
    ShortReadsNothing(message, 8);
    if |message| >= 24 {
      WidthBounds();
      ReadAsIff(message, 8, k.id);
      assert message[8..][..16] == message[8..24] && message[8..][16..] == message[24..];
      InsideBytes(k.decrypt(message[24..], message[8..24]), here, seen, id, body);
    }
  }

  lemma ShortReadsNothing(bs: bytes, width: nat)
    ensures TakeInt(bs, width).1 == if width <= |bs| then bs[width..] else []
    ensures width > |bs| ==> TakeInt(bs, width).0 == 0
  {
  }

  /** A number of the width is read exactly where its bytes stand. */
  lemma ReadAsIff(bs: bytes, width: nat, n: int)
    requires |bs| >= width && -Pow(256, width) <= 2 * n < Pow(256, width)
    ensures TakeInt(bs, width).0 == n <==> bs[..width] == Little(n, width)
  {
    hide Pow, Little, Unsigned;
    LittleSigned(bs[..width]);
    SignedLittle(n, width);
  }

  /** The same of a decrypted message. */
  lemma InsideBytes(plain: bytes, here: int64, seen: seq<int64>, id: int64, body: bytes)
    ensures Inside(plain, here, seen) == Accepted(id, body) <==>
              && |body| < 0x8000_0000 && HEADER_LENGTH + |body| + 12 <= |plain| <= HEADER_LENGTH + |body| + 1024
              && plain[8..16] == Little(here, 8)
              && plain[16..24] == Little(id, 8) && id % 2 == 1 && id !in seen
              && plain[28..32] == Little(|body|, 4)
              && plain[32..32 + |body|] == body
  {
    hide Pow, Little, TakeInt, Tested;
    if |plain| < HEADER_LENGTH {
      TooShortToAccept(plain, here, seen);
    } else {
      HeaderReads(plain);
      FieldsRead(plain, here, id, body);
      TestedIff(TakeInt(plain[8..], 8).0, TakeInt(plain[16..], 8).0, TakeInt(plain[28..], 4).0, plain[32..], |plain|,
                here, seen, id, body);
    }
  }

  lemma TooShortToAccept(plain: bytes, here: int64, seen: seq<int64>)
    requires |plain| < HEADER_LENGTH
    ensures Inside(plain, here, seen).Rejected?
  {
    hide TakeInt;
  }

  /** The fields of the header read as these exactly where their bytes stand there. */
  lemma FieldsRead(plain: bytes, here: int64, id: int64, body: bytes)
    requires |plain| >= HEADER_LENGTH
    ensures TakeInt(plain[8..], 8).0 == here <==> plain[8..16] == Little(here, 8)
    ensures TakeInt(plain[16..], 8).0 == id <==> plain[16..24] == Little(id, 8)
    ensures |body| < 0x8000_0000 ==> (TakeInt(plain[28..], 4).0 == |body| <==> plain[28..32] == Little(|body|, 4))
    ensures -0x8000_0000_0000_0000 <= TakeInt(plain[16..], 8).0 < 0x8000_0000_0000_0000
    ensures TakeInt(plain[28..], 4).0 < 0x8000_0000
    ensures |plain| >= HEADER_LENGTH + |body| ==> plain[32..][..|body|] == plain[32..32 + |body|]
  {
    hide Pow, Little, TakeInt;
    WidthBounds();
    ReadAsIff(plain[8..], 8, here);
    ReadAsIff(plain[16..], 8, id);
    if |body| < 0x8000_0000 { ReadAsIff(plain[28..], 4, |body|); }
    IsInt(plain[16..], 8);
    IsInt(plain[28..], 4);
    assert plain[8..][..8] == plain[8..16] && plain[16..][..8] == plain[16..24] && plain[28..][..4] == plain[28..32];
  }

  lemma HeaderReads(plain: bytes)
    requires |plain| >= HEADER_LENGTH
    ensures forall here, seen ::
              Inside(plain, here, seen)
              == Tested(TakeInt(plain[8..], 8).0, TakeInt(plain[16..], 8).0, TakeInt(plain[28..], 4).0, plain[32..],
                        |plain|, here, seen)
  {
    hide Tested, Pow, Signed;
    assert plain[8..][8..] == plain[16..] && plain[16..][8..] == plain[24..];
    assert plain[24..][4..] == plain[28..] && plain[28..][4..] == plain[32..];
  }

  /** A number read is one of its width. */
  lemma IsInt(bs: bytes, width: nat)
    requires |bs| >= width && (width == 4 || width == 8)
    ensures -Pow(256, width) <= 2 * TakeInt(bs, width).0 < Pow(256, width)
  {
    UnsignedBound(bs[..width]);
    hide Pow, Unsigned;
  }

  lemma TestedIff(session: int, number: int, length: int, rest: bytes, size: nat, here: int64, seen: seq<int64>,
                  id: int64, body: bytes)
    requires |rest| + HEADER_LENGTH == size
    requires -0x8000_0000_0000_0000 <= number < 0x8000_0000_0000_0000 && length < 0x8000_0000
    ensures Tested(session, number, length, rest, size, here, seen) == Accepted(id, body) <==>
              && session == here && number == id && id % 2 == 1 && id !in seen
              && length == |body| && HEADER_LENGTH + |body| + 12 <= size <= HEADER_LENGTH + |body| + 1024
              && rest[..|body|] == body
  {
  }

  /** And of those with no key id these: only during a handshake, with an id, a length and as many
      bytes as it says. */
  lemma PlaintextAcceptedIff(message: bytes, k: Keys, hasKey: bool, handshaking: bool, here: int64, seen: seq<int64>,
                             id: int64, body: bytes)
    requires |message| > 4 && TakeInt(message, 8).0 == 0
    ensures Judge(message, k, hasKey, handshaking, here, seen) == Accepted(id, body) <==>
              && handshaking && |body| < 0x8000_0000 && 20 + |body| <= |message|
              && message[8..16] == Little(id, 8)
              && message[16..20] == Little(|body|, 4)
              && message[20..20 + |body|] == body
  {
    hide Pow, Little, TakeInt;
    if |message| >= 20 {
      ShortReadsNothing(message, 8);
      ShortReadsNothing(message[8..], 8);
      ShortReadsNothing(message[16..], 4);
      assert message[8..][8..] == message[16..] && message[16..][4..] == message[20..];
      PlainFieldsRead(message, id, body);
    }
  }

  lemma PlainFieldsRead(message: bytes, id: int64, body: bytes)
    requires |message| >= 20
    ensures TakeInt(message[8..], 8).0 == id <==> message[8..16] == Little(id, 8)
    ensures |body| < 0x8000_0000 ==> (TakeInt(message[16..], 4).0 == |body| <==> message[16..20] == Little(|body|, 4))
    ensures -0x8000_0000_0000_0000 <= TakeInt(message[8..], 8).0 < 0x8000_0000_0000_0000
    ensures TakeInt(message[16..], 4).0 < 0x8000_0000
    ensures |message| >= 20 + |body| ==> message[20..][..|body|] == message[20..20 + |body|]
  {
    hide Pow, Little, TakeInt;
    WidthBounds();
    ReadAsIff(message[8..], 8, id);
    if |body| < 0x8000_0000 { ReadAsIff(message[16..], 4, |body|); }
    IsInt(message[8..], 8);
    IsInt(message[16..], 4);
    assert message[8..][..8] == message[8..16] && message[16..][..4] == message[16..20];
  }

  lemma IdsOfTheTwoSides(id: int)
    requires id % 4 == 0
    ensures id % 2 == 0 && (id + 1) % 2 == 1
  {
  }

  /** What this side sends meets every rule it has for arrivals but the one that tells the two
      directions apart; the exception is the one draw in 2^32. */
  lemma SentFrameMeetsTheRules(k: Keys, salt: int64, session: int64, id: int64, seqno: int32, body: bytes,
                               padding: bytes, draw: int32, seen: seq<int64>)
    requires Sound(k) && |body| <= 0x7FFF_FFF0 && |padding| == PaddingLength(|body|, draw)
    requires id % 4 == 0 && -0x8000_0000_0000_0000 <= id + 1 < 0x8000_0000_0000_0000 && id + 1 !in seen
    ensures var made := Envelope(k, Layout(salt, session, id + 1, seqno, body, padding));
            Judge(made, k, true, false, session, seen) == Accepted(id + 1, body) <==>
              draw != -0x8000_0000 || (0x7FFF_FFF0 - |body|) % 16 >= 12
    ensures Judge(Envelope(k, Layout(salt, session, id, seqno, body, padding)), k, true, false, session, seen).Rejected?
  {
    hide Judge, Envelope, Layout, PaddingLength, Sound;
    PaddingIsWhole(|body|, draw);
    PaddingIsEnoughIff(|body|, draw);
    IdsOfTheTwoSides(id);
    FrameIsAcceptedIff(k, salt, session, id + 1, seqno, body, padding, false, session, seen);
    FrameIsAcceptedIff(k, salt, session, id, seqno, body, padding, false, session, seen);
  }

  // --- the ring -----------------------------------------------------------------------------

  /** The ring is the last ids let in, oldest first; and of any sixty-five in a row, no two
      are the same. */
  ghost predicate RingOk(seen: seq<int64>, history: seq<int64>) {
    && seen == history[if |history| > RING_SIZE then |history| - RING_SIZE else 0..]
    && forall i, j :: 0 <= i < j < |history| && j - i <= RING_SIZE ==> history[i] != history[j]
  }

  lemma PushKeepsRing(seen: seq<int64>, history: seq<int64>, id: int64)
    requires RingOk(seen, history) && id !in seen
    ensures RingOk(Push(seen, id), history + [id])
  {
    var longer := history + [id];
    forall i | 0 <= i < |history| && |history| - i <= RING_SIZE ensures history[i] != id {
      var from := if |history| > RING_SIZE then |history| - RING_SIZE else 0;
      assert seen[i - from] == history[i];
    }
  }

  /** An id is turned away exactly when it is one of the last sixty-four let in. */
  lemma TurnedAwayIff(seen: seq<int64>, history: seq<int64>, id: int64)
    requires RingOk(seen, history)
    ensures id in seen <==> exists i :: 0 <= i < |history| && |history| - i <= RING_SIZE && history[i] == id
  {
    var from := if |history| > RING_SIZE then |history| - RING_SIZE else 0;
    forall i | from <= i < |history| ensures history[i] == seen[i - from] {}
    if id in seen {
      var k :| 0 <= k < |seen| && seen[k] == id;
      assert history[from + k] == id;
    }
  }

  /** One arrival, as the gate sees it. */
  datatype Arrival = Arrival(message: bytes, k: Keys, hasKey: bool, handshaking: bool, session: int64)

  function VerdictOn(g: Gate, a: Arrival): Verdict {
    Judge(a.message, a.k, a.hasKey, a.handshaking, a.session, g.seen)
  }

  predicate IsEncrypted(a: Arrival) {
    |a.message| > 4 && TakeInt(a.message, 8).0 != 0
  }

  function Let(g: Gate, a: Arrival): Gate {
    After(g, VerdictOn(g, a), IsEncrypted(a))
  }

  function Gated(arrivals: seq<Arrival>): Gate {
    if arrivals == [] then Gate([], 0, 0) else Let(Gated(arrivals[..|arrivals| - 1]), arrivals[|arrivals| - 1])
  }

  /** The ids let in, of a run of arrivals. */
  function History(arrivals: seq<Arrival>): seq<int64> {
    if arrivals == [] then []
    else
      var before := arrivals[..|arrivals| - 1];
      var a := arrivals[|arrivals| - 1];
      var v := VerdictOn(Gated(before), a);
      History(before) + if IsEncrypted(a) && v.Accepted? then [v.id] else []
  }

  lemma AcceptedIsUnseen(g: Gate, a: Arrival)
    requires IsEncrypted(a) && VerdictOn(g, a).Accepted?
    ensures VerdictOn(g, a).id !in g.seen
  {
    hide TakeInt;
  }

  lemma {:induction false} RingOverRuns(arrivals: seq<Arrival>)
    ensures RingOk(Gated(arrivals).seen, History(arrivals)) && Gated(arrivals).bad < BAD_PACKET_LIMIT
  {
    hide Judge, TakeInt, RingOk;
    if arrivals == [] {
      assert RingOk([], []) by { EmptyRing(); }
    } else {
      var before, a := arrivals[..|arrivals| - 1], arrivals[|arrivals| - 1];
      var g := Gated(before);
      RingOverRuns(before);
      assert History(before) + [] == History(before);
      if IsEncrypted(a) && VerdictOn(g, a).Accepted? {
        AcceptedIsUnseen(g, a);
        PushKeepsRing(g.seen, History(before), VerdictOn(g, a).id);
      }
    }
  }

  /** Of a row of packets rejected under the key every third resets the connection, and the row is
      over with one that is let in; a replayed one neither counts nor ends the row. */
  lemma {:induction false} EveryThirdResets(before: seq<Arrival>, row: seq<Arrival>)
    requires Gated(before).bad == 0
    requires forall i :: 0 <= i < |row| ==>
               var v := VerdictOn(Gated(before), row[i]);
               v.Rejected? && v.reason in {WrongKey, CipherLength, NotDecrypted, WrongMessageKey, WrongSession, EvenId,
                                           PaddingRange}
    ensures Gated(before + row) == Gated(before).(bad := |row| % 3, resets := Gated(before).resets + |row| / 3)
    decreases |row|
  {
    hide Judge, TakeInt;
    if row == [] {
      assert before + row == before;
    } else {
      var front, last := row[..|row| - 1], row[|row| - 1];
      EveryThirdResets(before, front);
      assert (before + row)[..|before + row| - 1] == before + front && (before + row)[|before + row| - 1] == last;
      assert VerdictOn(Gated(before + front), last) == VerdictOn(Gated(before), last);
    }
  }

  lemma LetInEndsRow(g: Gate, a: Arrival)
    ensures IsEncrypted(a) && VerdictOn(g, a).Accepted? ==> Let(g, a).bad == 0 && Let(g, a).resets == g.resets
    ensures VerdictOn(g, a) == Rejected(Replayed) ==> Let(g, a) == g
  {
    hide Judge, TakeInt;
  }

  lemma EmptyRing()
    ensures RingOk([], [])
  {
  }

  // --- the gate as it runs ------------------------------------------------------------------

  class InboundGate {
    var seenMessageIds: seq<int64>
    var badPackets: nat
    var resets: nat

    ghost function View(): Gate reads this {
      Gate(seenMessageIds, badPackets, resets)
    }

    constructor ()
      ensures View() == Gate([], 0, 0)
    {
      seenMessageIds, badPackets, resets := [], 0, 0;
    }

    method AcceptMessageId(messageId: int64) returns (isNew: bool)
      modifies this`seenMessageIds
      ensures isNew <==> messageId !in old(seenMessageIds)
      ensures seenMessageIds == if isNew then Push(old(seenMessageIds), messageId) else old(seenMessageIds)
    {
      if messageId in seenMessageIds { return false; }
      seenMessageIds := seenMessageIds + [messageId];
      if |seenMessageIds| > RING_SIZE { seenMessageIds := seenMessageIds[1..]; }
      return true;
    }

    method CountBadPacket()
      modifies this`badPackets, this`resets
      ensures View() == CountBad(old(View()))
    {
      badPackets := badPackets + 1;
      if badPackets < BAD_PACKET_LIMIT { return; }
      badPackets, resets := 0, resets + 1;
    }

    method ReadPlain(message: bytes, handshaking: bool) returns (v: Verdict)
      ensures v == PlainMessage(message, handshaking)
    {
      hide TakeInt;
      if !handshaking { return Rejected(PlaintextAfterHandshake); }
      if |message| < 20 { return Rejected(TruncatedHeader); }
      var packet := new TelegramStream(message);
      var _ := packet.ReadNumber(8);
      var id := packet.ReadNumber(8);
      var length := packet.ReadNumber(4);
      if length < 0 || length > |message| - 20 { return Rejected(PlainLength); }
      var data := packet.ReadRawBytes(length);
      return Accepted(Wrap64(id), data);
    }

    method ReadInside(plain: bytes, session: int64) returns (v: Verdict)
      modifies this
      ensures v == Inside(plain, session, old(seenMessageIds))
      ensures View() == After(old(View()), v, true)
    {
      hide TakeInt, Tested, After;
      var packet := new TelegramStream(plain);
      var _ := packet.ReadNumber(8);
      var remoteSession := packet.ReadNumber(8);
      var id := packet.ReadNumber(8);
      var _ := packet.ReadNumber(4);
      var length := packet.ReadNumber(4);
      v := Test(packet, remoteSession, id, length, |plain|, session);
    }

    /** The tests one after another, and the body once all are passed. */
    method Test(packet: TelegramStream, remoteSession: int, id: int, length: int, size: nat, session: int64)
      returns (v: Verdict)
      requires packet.Valid()
      modifies this, packet
      ensures v == Tested(remoteSession, id, length, old(packet.Rest()), size, session, old(seenMessageIds))
      ensures View() == After(old(View()), v, true)
    {
      hide CountBad, Front, Skip;
      if remoteSession != session {
        CountBadPacket();
        return Rejected(WrongSession);
      }
      if id % 2 == 0 {
        CountBadPacket();
        return Rejected(EvenId);
      }
      var padding := size - HEADER_LENGTH - length;
      if length < 0 || length > size - HEADER_LENGTH || padding < 12 || padding > 1024 {
        CountBadPacket();
        return Rejected(PaddingRange);
      }
      var isNew := AcceptMessageId(Wrap64(id));
      if !isNew { return Rejected(Replayed); }
      var data := packet.ReadRawBytes(length);
      badPackets := 0;
      return Accepted(Wrap64(id), data);
    }

    method ProcessMessage(a: Arrival) returns (v: Verdict)
      modifies this
      ensures v == VerdictOn(old(View()), a) && View() == Let(old(View()), a)
    {
      hide TakeInt, CountBad, Inside, PlainMessage;
      if |a.message| <= 4 { return Rejected(NotAMessage); }
      var packet := new TelegramStream(a.message);
      var keyId := packet.ReadNumber(8);
      if keyId == 0 {
        v := ReadPlain(a.message, a.handshaking);
        PlainIsNotCounted(a.message, a.handshaking);
        return;
      }
      if !a.hasKey || keyId != a.k.id {
        CountBadPacket();
        return Rejected(WrongKey);
      }
      if |a.message| < 24 + HEADER_LENGTH + 12 || (|a.message| - 24) % 16 != 0 {
        CountBadPacket();
        return Rejected(CipherLength);
      }
      var messageKey := packet.ReadRawBytes(16);
      LongEnough(a.message);
      var plain := a.k.decrypt(a.message[24..], messageKey);
      if plain == [] {
        CountBadPacket();
        return Rejected(NotDecrypted);
      }
      if a.k.messageKey(plain) != messageKey {
        CountBadPacket();
        return Rejected(WrongMessageKey);
      }
      v := ReadInside(plain, a.session);
    }
  }

  lemma PlainIsNotCounted(message: bytes, handshaking: bool)
    ensures var v := PlainMessage(message, handshaking); v.Rejected? ==> !Counted(v.reason)
  {
    hide TakeInt;
  }

  lemma LongEnough(message: bytes)
    requires |message| >= 24
    ensures TakeInt(message, 8).1 == message[8..] && message[8..][16..] == message[24..]
  {
  }
}
