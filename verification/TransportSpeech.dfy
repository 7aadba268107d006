/** All that is written: which frames an event writes, in which order and with what in them. */
module TransportSpeech {
  import opened Integers
  import opened Bytes
  import opened WireTrace
  import opened RequestLedger
  import opened MtTransport
  import opened TransportContents
  import Codec
  import MtSchema

  /** What a frame says, its numbering aside. */
  datatype Said = Clear(body: bytes) | UnderKey(content: bool, session: int64, salt: int64, body: bytes)

  function SaidIn(f: Frame): Said {
    if f.Plain? then Clear(f.body) else UnderKey(f.content, f.session, f.salt, f.body)
  }

  /** The frames of b after those of a say this. */
  ghost predicate Adds(a: Transport, b: Transport, said: seq<Said>) {
    && |b.line.wire| == |a.line.wire| + |said| && b.line.wire[..|a.line.wire|] == a.line.wire
    && forall k :: 0 <= k < |said| ==> SaidIn(b.line.wire[|a.line.wire| + k]) == said[k]
  }

  /** What decides how something is said. */
  datatype Voice = Voice(keyed: bool, initialized: bool, acks: seq<int64>, session: int64, salt: int64)

  function VoiceOf(t: Transport): Voice {
    Voice(t.keyed, t.initialized, t.acks, t.line.session, t.line.salt)
  }

  // --- what is to be said -------------------------------------------------------------------

  /** Compressed beyond 255 bytes. */
  function Shown(w: World, data: bytes): bytes {
    if |data| > 255 then w.gzip(data) else data
  }

  /** The ids, eight bytes each. */
  function IdBytes(acks: seq<int64>): bytes {
    if acks == [] then [] else Codec.Little(acks[0], 8) + IdBytes(acks[1..])
  }

  /** msgs_ack#62d6b459 msg_ids:Vector<long> */
  function MsgsAck(acks: seq<int64>): bytes {
    Codec.Little(0x62d6_b459, 4) + (Codec.Little(0x1cb5_c415, 4) + Codec.Little(|acks|, 4) + IdBytes(acks))
  }

  function Aside(w: World, v: Voice, data: bytes): seq<Said> {
    if data == [] then []
    else if v.keyed then [UnderKey(false, v.session, v.salt, Shown(w, data))]
    else [Clear(data)]
  }

  /** The acknowledgement of all that waits. */
  function Acking(w: World, v: Voice): seq<Said> {
    if v.acks == [] || !v.initialized then [] else Aside(w, v, MsgsAck(v.acks))
  }

  function Acked(v: Voice): Voice {
    if v.initialized then v.(acks := []) else v
  }

  /** A request, and under a key the acknowledgement before it. */
  function Asking(w: World, v: Voice, data: bytes): seq<Said> {
    if data == [] then []
    else if v.keyed then Acking(w, v) + [UnderKey(true, v.session, v.salt, Shown(w, data))]
    else [Clear(data)]
  }

  function Asked(v: Voice, data: bytes): Voice {
    if v.keyed && data != [] then Acked(v) else v
  }

  /** The requests of a table under these keys, one after another. */
  function Replaying(w: World, v: Voice, m: Table, keys: seq<int64>): seq<Said>
    decreases |keys|
  {
    if keys == [] then []
    else Asking(w, v, Take(m, keys[0])) + Replaying(w, Asked(v, Take(m, keys[0])), m - {keys[0]}, keys[1..])
  }

  function Replayed(v: Voice, m: Table, keys: seq<int64>): Voice
    decreases |keys|
  {
    if keys == [] then v else Replayed(Asked(v, Take(m, keys[0])), m - {keys[0]}, keys[1..])
  }

  /** The request a main connection with a user checks its authorization with. */
  function Check(w: World, isMain: bool, user: int64): bytes {
    if user == 0 || !isMain then [] else w.getUsers
  }

  /** What every event says, from its inputs and the state before. */
  function SaidBy(w: World, t: Transport, e: Event): seq<Said> {
    var v := VoiceOf(t);
    match e
    case Request(body) => Asking(w, v, body)
    case Service(body) => Aside(w, v, body)
    case Handshake(body) => Aside(w, v.(keyed := false), body)
    case Error(code, message, _, connected) =>
      if Classify(code, message) == Unauthorized && connected then Acking(w, v) else []
    case Rejection(code, badId, _, session, salt) =>
      var corrected := v.(session := if code == 32 || code == 33 then session else v.session,
                          salt := if code == 48 then salt else v.salt);
      Asking(w, corrected, Take(t.desk.pending, badId))
    case Config(keys) =>
      Replaying(w, v, t.desk.migration, keys)
      + Asking(w, Replayed(v, t.desk.migration, keys).(initialized := true), Check(w, t.isMain, t.user))
    case Login(user) => Asking(w, v, Check(w, t.isMain, user))
    case Timer(keys, ping) =>
      var replayed := Replayed(v, t.desk.flood, keys);
      Replaying(w, v, t.desk.flood, keys) + Acking(w, replayed) + Aside(w, replayed, ping)
    case Acknowledge => Acking(w, v)
    case NewKey(_, _, _, reply) => Aside(w, v.(keyed := false), reply)
    case Stopped(connected) => if connected then Acking(w, v) else []
    case _ => []
  }

  /** And how it leaves what decides that: which ids wait to be acknowledged among it. */
  function VoiceAfter(w: World, t: Transport, e: Event): Voice {
    var v := VoiceOf(t);
    match e
    case Request(body) => Asked(v, body)
    case Received(id) => if id in v.acks then v else v.(acks := v.acks + [id])
    case Error(code, message, _, _) =>
      if Classify(code, message) == Unauthorized then Voice(false, false, [], 0, v.salt) else v
    case Rejection(code, badId, _, session, salt) =>
      Asked(v.(session := if code == 32 || code == 33 then session else v.session,
               salt := if code == 48 then salt else v.salt),
            Take(t.desk.pending, badId))
    case Config(keys) =>
      Asked(Replayed(v, t.desk.migration, keys).(initialized := true), Check(w, t.isMain, t.user))
    case Login(user) => Asked(v, Check(w, t.isMain, user))
    case Timer(keys, _) => Acked(Replayed(v, t.desk.flood, keys))
    case Acknowledge => Acked(v)
    case NewKey(session, salt, _, _) => v.(keyed := true, session := session, salt := salt)
    case Stopped(_) => Voice(false, false, [], 0, v.salt)
    case Dropped => v.(initialized := false)
    case Reloaded => v.(keyed := t.saved.keyed, session := t.saved.session, salt := t.saved.salt)
    case _ => v
  }

  // --- and is said --------------------------------------------------------------------------

  lemma AddsTwice(a: Transport, b: Transport, c: Transport, first: seq<Said>, second: seq<Said>)
    requires Adds(a, b, first) && Adds(b, c, second)
    ensures Adds(a, c, first + second)
  {
    var wire, n, m := c.line.wire, |a.line.wire|, |b.line.wire|;
    assert wire[..n] == wire[..m][..n];
    forall k | 0 <= k < |first| ensures SaidIn(wire[n + k]) == first[k] { assert wire[n + k] == wire[..m][n + k]; }
    forall k | |first| <= k < |first| + |second| ensures SaidIn(wire[n + k]) == (first + second)[k] {
      var i := k - |first|;
      assert (first + second)[k] == second[i] && wire[n + k] == wire[m + i];
    }
  }

  /** The wire is all that matters. */
  lemma AddsFrame(a: Transport, b: Transport, a2: Transport, b2: Transport, said: seq<Said>)
    requires Adds(a, b, said) && a2.line.wire == a.line.wire && b2.line.wire == b.line.wire
    ensures Adds(a2, b2, said)
  {
  }

  lemma AddsNone(a: Transport, b: Transport)
    requires b.line.wire == a.line.wire
    ensures Adds(a, b, [])
  {
  }

  lemma {:induction false} ItemsOfAcks(acks: seq<int64>, vs: seq<Codec.Value>)
    requires |vs| == |acks| && forall i :: 0 <= i < |acks| ==> vs[i] == Codec.Number(acks[i])
    ensures Codec.EncodeItems(Codec.Long, vs) == IdBytes(acks)
    decreases |acks|
  {
    if acks != [] { ItemsOfAcks(acks[1..], vs[1..]); }
  }

  /** The acknowledgement's wire form, byte for byte. */
  lemma AckBytes(acks: seq<int64>)
    ensures AckBody(acks) == MsgsAck(acks) && MsgsAck(acks) != []
  {
    var vs := seq(|acks|, i requires 0 <= i < |acks| => Codec.Number(acks[i]));
    var v := Codec.Object(map["_" := Codec.Number(1658238041), "msg_ids" := Codec.Many(vs)]);
    ItemsOfAcks(acks, vs);
    AckValue(v, vs);
    AckFields(v, vs);
    assert AckBody(acks) == Codec.Encode(MtSchema.MSGS_ACK_TYPE, v) by { hide Codec.Encode; }
    hide Codec.Encode;
  }

  lemma AckValue(v: Codec.Value, vs: seq<Codec.Value>)
    requires v == Codec.Object(map["_" := Codec.Number(1658238041), "msg_ids" := Codec.Many(vs)])
    ensures v.At("_") == Codec.Number(1658238041) && v.At("msg_ids") == Codec.Many(vs)
  {
  }

  lemma AckFields(v: Codec.Value, vs: seq<Codec.Value>)
    requires v.At("_") == Codec.Number(1658238041) && v.At("msg_ids") == Codec.Many(vs)
    ensures Codec.Encode(MtSchema.MSGS_ACK_TYPE, v)
            == Codec.Little(0x62d6_b459, 4)
               + (Codec.Little(0x1cb5_c415, 4) + Codec.Little(|vs|, 4) + Codec.EncodeItems(Codec.Long, vs))
  {
    OneField(v, vs);
    OneCase(v);
    hide Codec.Little, Codec.EncodeItems, Codec.EncodeFields, Codec.EncodeCase;
  }

  lemma OneCase(v: Codec.Value)
    ensures Codec.EncodeCase(Codec.Case(1658238041, MtSchema.MSGS_ACK_FIELDS, Codec.NoCase), 1658238041, v)
           == Codec.Little(1658238041, 4) + Codec.EncodeFields(MtSchema.MSGS_ACK_FIELDS, v)
  {
    hide Codec.Little, Codec.EncodeFields;
  }

  lemma OneField(v: Codec.Value, vs: seq<Codec.Value>)
    requires v.At("msg_ids") == Codec.Many(vs)
    ensures Codec.EncodeFields(MtSchema.MSGS_ACK_FIELDS, v)
            == Codec.Little(0x1cb5_c415, 4) + Codec.Little(|vs|, 4) + Codec.EncodeItems(Codec.Long, vs)
  {
    hide Codec.Little, Codec.EncodeItems;
    var list := Codec.Encode(Codec.List(Codec.Long), v.At("msg_ids"));
    assert Codec.EncodeFields(Codec.End, v) == [] && list + [] == list;
  }

  lemma PlainSays(w: World, t: Transport, data: bytes, oldId: int64)
    ensures var sent := SendPlain(w, t, data, oldId).1;
            Adds(t, sent, Aside(w, VoiceOf(t).(keyed := false), data)) && VoiceOf(sent) == VoiceOf(t)
            && sent.desk == t.desk && sent.isMain == t.isMain && sent.user == t.user
  {
    PlainLine(t.line, w.clock, data);
    var sent := SendPlain(w, t, data, oldId).1;
    if data == [] { AddsNone(t, sent); } else { OneMore(t, sent, WritePlain(t.line, w.clock, data)); }
    hide WritePlain, Adds;
  }

  lemma PlainLine(l: Line, clock: nat -> int, body: bytes)
    ensures var after := WritePlain(l, clock, body);
            && |after.wire| == |l.wire| + 1 && after.wire[..|l.wire|] == l.wire
            && SaidIn(after.wire[|l.wire|]) == Clear(body)
            && after.session == l.session && after.salt == l.salt
  {
    hide Issue;
    IssueFrame(l, clock);
  }

  lemma SealedSays(w: World, t: Transport, data: bytes, oldId: int64, isService: bool)
    ensures var sent := SendSealed(w, t, data, oldId, isService).1;
            Adds(t, sent, [UnderKey(!isService, t.line.session, t.line.salt, Shown(w, data))])
            && VoiceOf(sent) == VoiceOf(t) && sent.isMain == t.isMain && sent.user == t.user
            && sent.desk.flood == t.desk.flood && sent.desk.migration == t.desk.migration
            && (isService ==> sent.desk == t.desk)
  {
    var body := Packed(w, data);
    var line := Seal(t.line, w.clock, body, !isService);
    SealedLine(t.line, w.clock, body, !isService);
    OneMore(t, SendSealed(w, t, data, oldId, isService).1, line);
    hide Seal, Adds;
  }

  lemma OneMore(a: Transport, b: Transport, line: Line)
    requires b.line == line && |line.wire| == |a.line.wire| + 1 && line.wire[..|a.line.wire|] == a.line.wire
    ensures Adds(a, b, [SaidIn(line.wire[|a.line.wire|])])
  {
  }

  lemma SealedLine(l: Line, clock: nat -> int, body: bytes, content: bool)
    ensures var after := Seal(l, clock, body, content);
            && |after.wire| == |l.wire| + 1 && after.wire[..|l.wire|] == l.wire
            && SaidIn(after.wire[|l.wire|]) == UnderKey(content, l.session, l.salt, body)
            && after.session == l.session && after.salt == l.salt
  {
    hide Issue, Count;
    IssueFrame(l, clock);
  }

  lemma AsideSays(w: World, t: Transport, data: bytes)
    ensures var sent := SendService(w, t, data).1;
            Adds(t, sent, Aside(w, VoiceOf(t), data)) && VoiceOf(sent) == VoiceOf(t)
            && sent.desk == t.desk && sent.isMain == t.isMain && sent.user == t.user
  {
    hide SendPlain, SendSealed;
    PlainSays(w, t, data, 0);
    SealedSays(w, t, data, 0, true);
  }

  lemma FlushSays(w: World, t: Transport)
    ensures var f := Flush(w, t);
            Adds(t, f, Acking(w, VoiceOf(t))) && VoiceOf(f) == Acked(VoiceOf(t))
            && f.desk == t.desk && f.isMain == t.isMain && f.user == t.user
  {
    hide SendService, AckBody, MsgsAck, Aside, Adds;
    AckBytes(t.acks);
    AddsNone(t, t);
    var emptied := t.(acks := []);
    AsideSays(w, emptied, AckBody(t.acks));
    if t.acks != [] && t.initialized {
      AddsFrame(emptied, Flush(w, t), t, Flush(w, t), Aside(w, VoiceOf(emptied), AckBody(t.acks)));
      AsideIgnoresAcks(w, VoiceOf(t), MsgsAck(t.acks));
    }
  }

  lemma AsideIgnoresAcks(w: World, v: Voice, data: bytes)
    ensures Aside(w, v.(acks := []), data) == Aside(w, v, data)
  {
  }

  lemma AskingSays(w: World, t: Transport, data: bytes, oldId: int64)
    ensures var sent := SendContent(w, t, data, oldId).1;
            Adds(t, sent, Asking(w, VoiceOf(t), data)) && VoiceOf(sent) == Asked(VoiceOf(t), data)
            && sent.isMain == t.isMain && sent.user == t.user
            && sent.desk.flood == t.desk.flood && sent.desk.migration == t.desk.migration
  {
    hide SendPlain, SendSealed, Flush, Acking, Shown, Adds;
    AddsNone(t, t);
    PlainSays(w, t, data, oldId);
    FlushSays(w, t);
    var sent := SendContent(w, t, data, oldId).1;
    if !t.keyed {
      AddsFrame(t, SendPlain(w, t, data, oldId).1, t, sent, Asking(w, VoiceOf(t), data));
    } else if data != [] {
      var f := Flush(w, t);
      SealedSays(w, f, data, oldId, false);
      AddsTwice(t, f, sent, Acking(w, VoiceOf(t)), [UnderKey(true, f.line.session, f.line.salt, Shown(w, data))]);
    }
  }

  lemma SubmitSays(w: World, t: Transport, data: bytes)
    ensures var sent := Submit(w, t, data).1;
            Adds(t, sent, Asking(w, VoiceOf(t), data)) && VoiceOf(sent) == Asked(VoiceOf(t), data)
  {
    hide SendContent, Adds, Asking;
    var asked := t.(desk := Ask(t.desk, data));
    AskingSays(w, asked, data, 0);
    AddsFrame(asked, Submit(w, t, data).1, t, Submit(w, t, data).1, Asking(w, VoiceOf(t), data));
  }

  lemma ResendOneSays(w: World, t: Transport, shelf: Shelf, key: int64)
    ensures var one := ResendOne(w, t, shelf, key);
            Adds(t, one, Asking(w, VoiceOf(t), Take(On(t.desk, shelf), key)))
            && VoiceOf(one) == Asked(VoiceOf(t), Take(On(t.desk, shelf), key))
            && On(one.desk, shelf) == On(t.desk, shelf) - {key} && one.isMain == t.isMain && one.user == t.user
  {
    hide SendContent, Adds, Asking, Asked;
    var taken := t.(desk := Unshelve(t.desk, shelf, key));
    var body := Take(On(t.desk, shelf), key);
    AskingSays(w, taken, body, key);
    AddsFrame(taken, ResendOne(w, t, shelf, key), t, ResendOne(w, t, shelf, key), Asking(w, VoiceOf(t), body));
  }

  lemma {:induction false} ResendSays(w: World, t: Transport, shelf: Shelf, keys: seq<int64>)
    ensures var r := Resend(w, t, shelf, keys); var m := On(t.desk, shelf);
            Adds(t, r, Replaying(w, VoiceOf(t), m, keys)) && VoiceOf(r) == Replayed(VoiceOf(t), m, keys)
            && r.isMain == t.isMain && r.user == t.user
    decreases |keys|
  {
    hide ResendOne, Adds, Asking, Asked, On, Take;
    AddsNone(t, t);
    if keys != [] {
      var one, m := ResendOne(w, t, shelf, keys[0]), On(t.desk, shelf);
      ResendOneSays(w, t, shelf, keys[0]);
      ResendSays(w, one, shelf, keys[1..]);
      AddsTwice(t, one, Resend(w, t, shelf, keys), Asking(w, VoiceOf(t), Take(m, keys[0])),
                Replaying(w, VoiceOf(one), m - {keys[0]}, keys[1..]));
    }
  }

  lemma CheckSays(w: World, t: Transport)
    ensures Adds(t, CheckAuthorization(w, t), Asking(w, VoiceOf(t), Check(w, t.isMain, t.user)))
    ensures VoiceOf(CheckAuthorization(w, t)) == Asked(VoiceOf(t), Check(w, t.isMain, t.user))
  {
    hide Submit, Adds;
    AddsNone(t, t);
    SubmitSays(w, t, w.getUsers);
    var sent := Submit(w, t, w.getUsers).1;
    AddsFrame(t, sent, t, sent.(authCheck := Submit(w, t, w.getUsers).0), Asking(w, VoiceOf(t), w.getUsers));
  }

  lemma LoginSays(w: World, t: Transport, user: int64)
    ensures Adds(t, Authorized(w, t, user), Asking(w, VoiceOf(t), Check(w, t.isMain, user)))
    ensures VoiceOf(Authorized(w, t, user)) == VoiceAfter(w, t, Login(user))
  {
    hide CheckAuthorization, Adds, Asking;
    var s := Save(t.(user := user));
    CheckSays(w, s);
    AddsFrame(s, Authorized(w, t, user), t, Authorized(w, t, user), Asking(w, VoiceOf(t), Check(w, t.isMain, user)));
  }

  lemma CorrectVoice(w: World, t: Transport, code: int32, serverId: int64, session: int64, salt: int64)
    ensures var c := Save(Correct(w, t, code, serverId, session, salt));
            && VoiceOf(c) == VoiceOf(t).(session := if code == 32 || code == 33 then session else t.line.session,
                                         salt := if code == 48 then salt else t.line.salt)
            && c.line.wire == t.line.wire && c.desk == t.desk
  {
    hide Wrap32;
  }

  lemma RejectionSays(w: World, t: Transport, code: int32, badId: int64, serverId: int64, session: int64, salt: int64)
    ensures Adds(t, BadMsg(w, t, code, badId, serverId, session, salt),
                 SaidBy(w, t, Rejection(code, badId, serverId, session, salt)))
    ensures VoiceOf(BadMsg(w, t, code, badId, serverId, session, salt))
            == VoiceAfter(w, t, Rejection(code, badId, serverId, session, salt))
  {
    hide SendContent, Adds, Asking, Correct, Save, Take;
    CorrectVoice(w, t, code, serverId, session, salt);
    var c := Save(Correct(w, t, code, serverId, session, salt));
    var taken := c.(desk := c.desk.(pending := c.desk.pending - {badId}));
    var after := BadMsg(w, t, code, badId, serverId, session, salt);
    AskingSays(w, taken, Take(c.desk.pending, badId), badId);
    AddsFrame(taken, after, t, after, Asking(w, VoiceOf(taken), Take(t.desk.pending, badId)));
  }

  lemma ConfigSays(w: World, t: Transport, keys: seq<int64>)
    ensures Adds(t, Configured(w, t, keys), SaidBy(w, t, Config(keys)))
    ensures VoiceOf(Configured(w, t, keys)) == VoiceAfter(w, t, Config(keys))
  {
    hide Resend, CheckAuthorization, Adds, Asking, Replaying, Replayed;
    var s := Save(t);
    var r := Resend(w, s, Migration, keys);
    var i := r.(initialized := true);
    ResendSays(w, s, Migration, keys);
    CheckSays(w, i);
    AddsFrame(s, r, t, i, Replaying(w, VoiceOf(t), t.desk.migration, keys));
    AddsTwice(t, i, CheckAuthorization(w, i), Replaying(w, VoiceOf(t), t.desk.migration, keys),
              Asking(w, VoiceOf(i), Check(w, t.isMain, t.user)));
  }

  lemma TimerSays(w: World, t: Transport, keys: seq<int64>, ping: bytes)
    ensures Adds(t, Tick(w, t, keys, ping), SaidBy(w, t, Timer(keys, ping)))
    ensures VoiceOf(Tick(w, t, keys, ping)) == VoiceAfter(w, t, Timer(keys, ping))
  {
    hide Resend, Flush, SendService, Adds, Aside, Replaying, Replayed, Bodies, Acking;
    var kept := if |t.desk.pending| >= FORGET_AT then t.(desk := Forget(t.desk)) else t;
    var r := Resend(w, kept, Flood, keys);
    var f := Flush(w, r);
    var replaying := Replaying(w, VoiceOf(t), t.desk.flood, keys);
    ResendSays(w, kept, Flood, keys);
    AddsFrame(kept, r, t, r, replaying);
    FlushSays(w, r);
    AsideSays(w, Save(f), ping);
    AsideKeepsVoice(w, VoiceOf(r), ping);
    AddsTwice(t, r, f, replaying, Acking(w, VoiceOf(r)));
    AddsFrame(t, f, t, Save(f), replaying + Acking(w, VoiceOf(r)));
    AddsTwice(t, Save(f), Tick(w, t, keys, ping), replaying + Acking(w, VoiceOf(r)), Aside(w, VoiceOf(f), ping));
  }

  lemma AsideKeepsVoice(w: World, v: Voice, data: bytes)
    ensures Aside(w, Acked(v), data) == Aside(w, v, data)
  {
  }

  lemma ResetSays(w: World, t: Transport, connected: bool)
    ensures Adds(t, Reset(w, t, connected), if connected then Acking(w, VoiceOf(t)) else [])
    ensures VoiceOf(Reset(w, t, connected)) == Voice(false, false, [], 0, t.line.salt)
  {
    hide Flush, Adds, Acking, Bodies;
    FlushSays(w, Save(t));
    AddsNone(t, t);
    var stopped := if connected then Flush(w, Save(t)) else Save(t);
    if connected {
      AddsFrame(Save(t), stopped, t, Reset(w, t, connected), Acking(w, VoiceOf(t)));
    } else {
      AddsFrame(t, t, t, Reset(w, t, connected), []);
    }
  }

  lemma ErrorSays(w: World, t: Transport, code: int32, message: string, id: int64, connected: bool)
    ensures Adds(t, AfterError(w, t, code, message, id, connected), SaidBy(w, t, Error(code, message, id, connected)))
    ensures VoiceOf(AfterError(w, t, code, message, id, connected))
            == VoiceAfter(w, t, Error(code, message, id, connected))
  {
    hide Reset, Adds, Acking, Classify, OnError;
    ResetSays(w, t, connected);
    if Classify(code, message) != Unauthorized { AddsNone(t, AfterError(w, t, code, message, id, connected)); }
  }

  lemma NewKeySays(w: World, t: Transport, session: int64, salt: int64, offset: int32, reply: bytes)
    ensures Adds(t, KeyDerived(w, t, session, salt, offset, reply),
                 SaidBy(w, t, NewKey(session, salt, offset, reply)))
    ensures VoiceOf(KeyDerived(w, t, session, salt, offset, reply))
            == VoiceAfter(w, t, NewKey(session, salt, offset, reply))
  {
    hide SendPlain, Adds;
    var line := WireTrace.Restart(t.line, session).(salt := salt, offset := offset);
    var begun := t.(keyed := true, line := line);
    var after := KeyDerived(w, t, session, salt, offset, reply);
    PlainSays(w, begun, reply, 0);
    AddsFrame(begun, after, t, after, Aside(w, VoiceOf(t).(keyed := false), reply));
  }

  lemma NotesSayNothing(w: World, t: Transport, e: Event)
    requires e.Excluded? || e.Received? || e.Reply? || e.Dropped? || e.Stored? || e.Reloaded?
    ensures Adds(t, Step(w, t, e), []) && VoiceOf(Step(w, t, e)) == VoiceAfter(w, t, e)
  {
    hide Adds;
    AddsNone(t, Step(w, t, e));
  }

  /** Every event writes exactly these frames: each request as it was made, compressed beyond 255
      bytes, in the session and with the salt of the moment, after the acknowledgement of all that
      waits; and nothing else. */
  lemma StepSays(w: World, t: Transport, e: Event)
    ensures Adds(t, Step(w, t, e), SaidBy(w, t, e))
    ensures VoiceOf(Step(w, t, e)) == VoiceAfter(w, t, e)
  {
    hide Submit, SendService, SendPlain, BadMsg, Configured, Authorized, Tick, Flush, KeyDerived, Reset, AfterError;
    hide Adds, Asking, Asked, Acking, Acked, Aside, Replaying, Replayed, Check, Classify, Take;
    match e
    case Request(body) => SubmitSays(w, t, body);
    case Service(body) => AsideSays(w, t, body);
    case Handshake(body) => PlainSays(w, t, body, 0);
    case Error(code, message, id, connected) => ErrorSays(w, t, code, message, id, connected);
    case Rejection(code, badId, serverId, session, salt) => RejectionSays(w, t, code, badId, serverId, session, salt);
    case Config(keys) => ConfigSays(w, t, keys);
    case Login(user) => LoginSays(w, t, user);
    case Timer(keys, ping) => TimerSays(w, t, keys, ping);
    case Acknowledge => FlushSays(w, t);
    case NewKey(session, salt, offset, reply) => NewKeySays(w, t, session, salt, offset, reply);
    case Stopped(connected) => ResetSays(w, t, connected);
    case _ => NotesSayNothing(w, t, e);
  }

  ghost function AllSaid(w: World, t: Transport, events: seq<Event>): seq<Said> {
    if events == [] then []
    else
      var before := events[..|events| - 1];
      AllSaid(w, t, before) + SaidBy(w, Steps(w, t, before), events[|events| - 1])
  }

  /** And so over runs: the wire is all that the events say. */
  lemma {:induction false} WireSays(w: World, t: Transport, events: seq<Event>)
    ensures Adds(t, Steps(w, t, events), AllSaid(w, t, events))
    decreases |events|
  {
    hide Step, SaidBy, Adds;
    AddsNone(t, t);
    if events != [] {
      var before := events[..|events| - 1];
      var u := Steps(w, t, before);
      WireSays(w, t, before);
      StepSays(w, u, events[|events| - 1]);
      AddsTwice(t, u, Steps(w, t, events), AllSaid(w, t, before), SaidBy(w, u, events[|events| - 1]));
    }
  }

  // --- every id heard is acknowledged -------------------------------------------------------

  /** Some frame among these acknowledges all of the ids. */
  predicate Acknowledges(w: World, said: seq<Said>, acks: seq<int64>) {
    exists k :: 0 <= k < |said| && said[k].body in {MsgsAck(acks), Shown(w, MsgsAck(acks))}
  }

  lemma AcknowledgesMore(w: World, a: seq<Said>, b: seq<Said>, acks: seq<int64>)
    ensures Acknowledges(w, a, acks) || Acknowledges(w, b, acks) ==> Acknowledges(w, a + b, acks)
  {
    hide MsgsAck, Shown;
    if k :| 0 <= k < |a| && a[k].body in {MsgsAck(acks), Shown(w, MsgsAck(acks))} { assert (a + b)[k] == a[k]; }
    if k :| 0 <= k < |b| && b[k].body in {MsgsAck(acks), Shown(w, MsgsAck(acks))} { assert (a + b)[|a| + k] == b[k]; }
  }

  lemma AckingAcknowledges(w: World, v: Voice)
    requires v.acks != [] && v.initialized
    ensures Acknowledges(w, Acking(w, v), v.acks)
  {
    AckBytes(v.acks);
    hide MsgsAck, Shown;
    assert Acking(w, v)[0].body in {MsgsAck(v.acks), Shown(w, MsgsAck(v.acks))};
  }

  /** After a request what waited still does, or has been acknowledged. */
  lemma AskingAcknowledges(w: World, v: Voice, data: bytes)
    ensures Asked(v, data) == v || (Asked(v, data) == v.(acks := []) && v.acks != []
                                    && Acknowledges(w, Asking(w, v, data), v.acks))
  {
    hide Acking, Acknowledges;
    if v.keyed && data != [] && v.initialized && v.acks != [] {
      AckingAcknowledges(w, v);
      AcknowledgesMore(w, Acking(w, v), [UnderKey(true, v.session, v.salt, Shown(w, data))], v.acks);
    }
  }

  lemma {:induction false} ReplayingAcknowledges(w: World, v: Voice, m: Table, keys: seq<int64>)
    ensures Replayed(v, m, keys) == v || (Replayed(v, m, keys) == v.(acks := []) && v.acks != []
                                          && Acknowledges(w, Replaying(w, v, m, keys), v.acks))
    decreases |keys|
  {
    hide Asking, Asked, Acknowledges, Take;
    if keys != [] {
      var body := Take(m, keys[0]);
      AskingAcknowledges(w, v, body);
      ReplayingAcknowledges(w, Asked(v, body), m - {keys[0]}, keys[1..]);
      AcknowledgesMore(w, Asking(w, v, body), Replaying(w, Asked(v, body), m - {keys[0]}, keys[1..]), v.acks);
    }
  }

  /** Unless the session is reset, an id that waits to be acknowledged goes on waiting or is in an
      acknowledgement that the event writes, with all the others that waited. */
  lemma HeardIsAcknowledged(w: World, t: Transport, e: Event)
    requires t.acks != [] && !e.Stopped? && !(e.Error? && Classify(e.code, e.message) == Unauthorized)
    ensures t.acks <= VoiceAfter(w, t, e).acks || Acknowledges(w, SaidBy(w, t, e), t.acks)
  {
    hide Asking, Asked, Acking, Acknowledges, Take, Replaying, Replayed, Check, Classify, Aside;
    var v := VoiceOf(t);
    match e
    case Request(body) => AskingAcknowledges(w, v, body);
    case Login(user) => AskingAcknowledges(w, v, Check(w, t.isMain, user));
    case Rejection(code, badId, _, session, salt) =>
      AskingAcknowledges(w, v.(session := if code == 32 || code == 33 then session else v.session,
                               salt := if code == 48 then salt else v.salt), Take(t.desk.pending, badId));
    case Acknowledge => if v.initialized { AckingAcknowledges(w, v); }
    case Config(keys) =>
      var m := t.desk.migration;
      var r := Replayed(v, m, keys);
      var own := Check(w, t.isMain, t.user);
      ReplayingAcknowledges(w, v, m, keys);
      AskingAcknowledges(w, r.(initialized := true), own);
      AcknowledgesMore(w, Replaying(w, v, m, keys), Asking(w, r.(initialized := true), own), v.acks);
    case Timer(keys, ping) =>
      var m := t.desk.flood;
      var r := Replayed(v, m, keys);
      ReplayingAcknowledges(w, v, m, keys);
      if r.acks != [] && r.initialized { AckingAcknowledges(w, r); }
      AcknowledgesMore(w, Replaying(w, v, m, keys), Acking(w, r), v.acks);
      AcknowledgesMore(w, Replaying(w, v, m, keys) + Acking(w, r), Aside(w, r, ping), v.acks);
    case _ =>
  }
}
