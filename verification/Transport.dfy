/** libkg/tgtransport: what each entry point of the transport does to its numbering, its request
    tables and the ids it still has to acknowledge. */
module MtTransport {
  import opened Integers
  import opened Bytes
  import opened WireTrace
  import opened RequestLedger
  import Codec
  import MtSchema

  /** What the transport cannot choose: the readings of the clock, what gzip makes of a body,
      and the body of the request it checks its authorization with. */
  datatype World = World(clock: nat -> int, gzip: bytes -> bytes, getUsers: bytes)

  datatype Saved = Saved(
    keyed: bool, offset: int32, sequence: int32, last: int64, session: int64, salt: int64, user: int64)

  datatype Transport = Transport(
    keyed: bool,
    isMain: bool,
    initialized: bool,
    user: int64,
    acks: seq<int64>,
    authCheck: int64,
    line: Line,
    desk: Desk,
    renames: seq<(int64, int64)>,
    saved: Saved)

  const FORGET_AT := 40

  // --- sending ------------------------------------------------------------------------------

  function Packed(w: World, data: bytes): bytes {
    if |data| > 255 then w.gzip(data) else data
  }

  function AckBody(acks: seq<int64>): bytes {
    Codec.Encode(MtSchema.MSGS_ACK_TYPE, Codec.Object(map[
      "_" := Codec.Number(1658238041),
      "msg_ids" := Codec.Many(seq(|acks|, i requires 0 <= i < |acks| => Codec.Number(acks[i])))]))
  }

  /** The client and the transport itself hear of a request's new id. */
  function Rename(t: Transport, oldId: int64, newId: int64): Transport {
    if oldId == 0 then t
    else t.(authCheck := if t.authCheck == oldId then newId else t.authCheck,
            renames := t.renames + [(oldId, newId)])
  }

  function SendPlain(w: World, t: Transport, data: bytes, oldId: int64): (int64, Transport) {
    if data == [] then (0, t)
    else
      var line := WritePlain(t.line, w.clock, data);
      (line.last, Rename(t.(line := line), oldId, line.last))
  }

  /** The frame itself, and the request held until its answer. */
  function SendSealed(w: World, t: Transport, data: bytes, oldId: int64, isService: bool): (int64, Transport) {
    var line := Seal(t.line, w.clock, Packed(w, data), !isService);
    var desk := if isService then t.desk else Hold(t.desk, line.last, data);
    (line.last, Rename(t.(line := line, desk := desk), oldId, line.last))
  }

  function SendService(w: World, t: Transport, data: bytes): (int64, Transport) {
    if !t.keyed then SendPlain(w, t, data, 0)
    else if data == [] then (0, t)
    else SendSealed(w, t, data, 0, true)
  }

  function Flush(w: World, t: Transport): Transport {
    if t.acks == [] || !t.initialized then t
    else SendService(w, t.(acks := []), AckBody(t.acks)).1
  }

  /** A request: in the clear, and not held, while there is no key. */
  function SendContent(w: World, t: Transport, data: bytes, oldId: int64): (int64, Transport) {
    if !t.keyed then
      var (id, sent) := SendPlain(w, t, data, oldId);
      (id, sent.(desk := Settle(sent.desk, data)))
    else if data == [] then (0, t)
    else SendSealed(w, Flush(w, t), data, oldId, false)
  }

  function Submit(w: World, t: Transport, data: bytes): (int64, Transport) {
    SendContent(w, t.(desk := Ask(t.desk, data)), data, 0)
  }

  // --- settings -----------------------------------------------------------------------------

  function Save(t: Transport): Transport {
    t.(saved := Saved(t.keyed, t.line.offset, t.line.sequence, t.line.last, t.line.session, t.line.salt, t.user))
  }

  function Load(t: Transport): Transport {
    t.(keyed := t.saved.keyed, user := t.saved.user,
       line := Reload(t.line, t.saved.offset, t.saved.sequence, t.saved.last, t.saved.session, t.saved.salt))
  }

  // --- entry points -------------------------------------------------------------------------

  function Heard(t: Transport, id: int64): Transport {
    if id in t.acks then t else t.(acks := t.acks + [id])
  }

  function Answered(t: Transport, id: int64): Transport {
    t.(desk := Remove(t.desk, id))
  }

  function Exclude(t: Transport, id: int64): Transport {
    if id == 0 then t else t.(desk := t.desk.(noReplay := t.desk.noReplay + {id}))
  }

  /** Stopping saves first and acknowledges afterwards. */
  ghost function Reset(w: World, t: Transport, connected: bool): Transport {
    var stopped := if connected then Flush(w, Save(t)) else Save(t);
    Save(stopped.(keyed := false, user := 0, line := stopped.line.(session := 0)))
      .(desk := ForgetAll(stopped.desk), acks := [], initialized := false)
  }

  ghost function AfterError(w: World, t: Transport, code: int32, message: string, id: int64,
                            connected: bool): Transport {
    var verdict := Classify(code, message);
    if verdict == Unauthorized then Reset(w, t, connected)
    else t.(desk := OnError(t.desk, verdict, t.isMain, id))
  }

  /** What a notification's code does to the counters. */
  function Correct(w: World, t: Transport, code: int32, serverId: int64, session: int64, salt: int64): Transport {
    if code == 16 || code == 17 then
      var offset := Wrap32(Wrap32(serverId / 0x1_0000_0000) - w.clock(t.line.readings));
      t.(line := SetBack(t.line).(offset := offset, readings := t.line.readings + 1))
    else if code == 32 || code == 33 then t.(line := Restart(t.line, session))
    else if code == 48 then t.(line := t.line.(salt := salt))
    else t
  }

  /** The rejected request goes out again, under a new id. */
  function BadMsg(w: World, t: Transport, code: int32, badId: int64, serverId: int64, session: int64,
                  salt: int64): Transport {
    var c := Save(Correct(w, t, code, serverId, session, salt));
    var body := Take(c.desk.pending, badId);
    SendContent(w, c.(desk := c.desk.(pending := c.desk.pending - {badId})), body, badId).1
  }

  /** Everything on a shelf goes out again, in the order of its keys. */
  function Resend(w: World, t: Transport, shelf: Shelf, keys: seq<int64>): Transport
    decreases |keys|
  {
    if keys == [] then t
    else Resend(w, ResendOne(w, t, shelf, keys[0]), shelf, keys[1..])
  }

  function ResendOne(w: World, t: Transport, shelf: Shelf, key: int64): Transport {
    var body := Take(On(t.desk, shelf), key);
    SendContent(w, t.(desk := Unshelve(t.desk, shelf, key)), body, key).1
  }

  function CheckAuthorization(w: World, t: Transport): Transport {
    if t.user == 0 || !t.isMain then t
    else
      var (id, sent) := Submit(w, t, w.getUsers);
      sent.(authCheck := id)
  }

  function Authorized(w: World, t: Transport, user: int64): Transport {
    CheckAuthorization(w, Save(t.(user := user)))
  }

  function Configured(w: World, t: Transport, keys: seq<int64>): Transport {
    CheckAuthorization(w, Resend(w, Save(t), Migration, keys).(initialized := true))
  }

  /** The keepalive: too many pending requests are forgotten, flooded ones go out again. */
  ghost function Tick(w: World, t: Transport, keys: seq<int64>, ping: bytes): Transport {
    var kept := if |t.desk.pending| >= FORGET_AT then t.(desk := Forget(t.desk)) else t;
    SendService(w, Save(Flush(w, Resend(w, kept, Flood, keys))), ping).1
  }

  function KeyDerived(w: World, t: Transport, session: int64, salt: int64, offset: int32, reply: bytes): Transport {
    var line := Restart(t.line, session).(salt := salt, offset := offset);
    SendPlain(w, t.(keyed := true, line := line), reply, 0).1
  }

  // --- runs ---------------------------------------------------------------------------------

  datatype Event =
    | Request(body: bytes)
    | Service(body: bytes)
    | Handshake(body: bytes)
    | Excluded(id: int64)
    | Received(id: int64)
    | Reply(id: int64)
    | Error(code: int32, message: string, id: int64, connected: bool)
    | Rejection(code: int32, badId: int64, serverId: int64, session: int64, salt: int64)
    | Config(keys: seq<int64>)
    | Login(user: int64)
    | Timer(keys: seq<int64>, ping: bytes)
    | Acknowledge
    | NewKey(session: int64, salt: int64, offset: int32, reply: bytes)
    | Stopped(connected: bool)
    | Dropped
    | Stored
    | Reloaded

  ghost function Step(w: World, t: Transport, e: Event): Transport {
    match e
    case Request(body) => Submit(w, t, body).1
    case Service(body) => SendService(w, t, body).1
    case Handshake(body) => SendPlain(w, t, body, 0).1
    case Excluded(id) => Exclude(t, id)
    case Received(id) => Heard(t, id)
    case Reply(id) => Answered(t, id)
    case Error(code, message, id, connected) => AfterError(w, t, code, message, id, connected)
    case Rejection(code, badId, serverId, session, salt) => BadMsg(w, t, code, badId, serverId, session, salt)
    case Config(keys) => Configured(w, t, keys)
    case Login(user) => Authorized(w, t, user)
    case Timer(keys, ping) => Tick(w, t, keys, ping)
    case Acknowledge => Flush(w, t)
    case NewKey(session, salt, offset, reply) => KeyDerived(w, t, session, salt, offset, reply)
    case Stopped(connected) => Reset(w, t, connected)
    case Dropped => t.(initialized := false)
    case Stored => Save(t)
    case Reloaded => Load(t)
  }

  ghost function Steps(w: World, t: Transport, events: seq<Event>): Transport {
    if events == [] then t
    else Step(w, Steps(w, t, events[..|events| - 1]), events[|events| - 1])
  }

  function StartLine(s: Saved): Line {
    Line(s.offset, s.sequence, s.last, s.session, s.salt, 0, [], 0, [Begin(s.sequence, s.session)])
  }

  /** A transport as constructed from what was saved. */
  function Fresh(s: Saved, isMain: bool): Transport {
    Transport(s.keyed, isMain, false, s.user, [], 0, StartLine(s),
      Desk(map[], map[], map[], {}, multiset{}, multiset{}, multiset{}), [], s)
  }
}
