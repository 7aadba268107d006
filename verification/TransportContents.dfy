/** What the frames carry: the requests that are held, as they were made. */
module TransportContents {
  import opened Integers
  import opened Bytes
  import opened WireTrace
  import opened RequestLedger
  import opened MtTransport
  import Codec

  /** A content frame with the id carries the request, compressed if it is long. */
  ghost predicate InFrame(w: World, wire: seq<Frame>, id: int64, data: bytes) {
    exists i :: 0 <= i < |wire| && wire[i].Sealed? && wire[i].content && wire[i].id == id
                && wire[i].body == if |data| > 255 then w.gzip(data) else data
  }

  /** Every request held as pending is in a content frame written under the id it is pending
      under. */
  ghost predicate Carried(w: World, t: Transport) {
    forall id :: id in t.desk.pending && t.desk.pending[id] != [] ==> InFrame(w, t.line.wire, id, t.desk.pending[id])
  }

  predicate Longer(a: seq<Frame>, b: seq<Frame>) {
    |a| <= |b| && b[..|a|] == a
  }

  /** On the way from a to b nothing is unwritten, and what was carried still is. */
  ghost predicate Bears(w: World, a: Transport, b: Transport) {
    Longer(a.line.wire, b.line.wire) && (Carried(w, a) ==> Carried(w, b))
  }

  lemma BearsTwice(w: World, a: Transport, b: Transport, c: Transport)
    requires Bears(w, a, b) && Bears(w, b, c)
    ensures Bears(w, a, c)
  {
    hide Carried;
    assert c.line.wire[..|a.line.wire|] == b.line.wire[..|a.line.wire|];
  }

  lemma FrameStays(w: World, a: seq<Frame>, b: seq<Frame>, id: int64, data: bytes)
    requires Longer(a, b) && InFrame(w, a, id, data)
    ensures InFrame(w, b, id, data)
  {
    var i :| 0 <= i < |a| && a[i].Sealed? && a[i].content && a[i].id == id
             && a[i].body == if |data| > 255 then w.gzip(data) else data;
    assert b[i] == b[..|a|][i];
  }

  /** Where nothing new is pending. */
  lemma QuietBears(w: World, a: Transport, b: Transport)
    requires Longer(a.line.wire, b.line.wire)
    requires forall id :: id in b.desk.pending ==> id in a.desk.pending && b.desk.pending[id] == a.desk.pending[id]
    ensures Bears(w, a, b)
  {
    if Carried(w, a) {
      forall id | id in b.desk.pending && b.desk.pending[id] != []
        ensures InFrame(w, b.line.wire, id, b.desk.pending[id]) {
        FrameStays(w, a.line.wire, b.line.wire, id, a.desk.pending[id]);
      }
    }
  }

  /** Where one request is newly pending, with a frame of its own. */
  lemma HeldBears(w: World, a: Transport, b: Transport, f: Frame, data: bytes)
    requires b.line.wire == a.line.wire + [f] && f.Sealed? && f.content
    requires f.body == if |data| > 255 then w.gzip(data) else data
    requires b.desk.pending == a.desk.pending[f.id := data]
    ensures Bears(w, a, b)
  {
    if Carried(w, a) {
      forall id | id in b.desk.pending && b.desk.pending[id] != []
        ensures InFrame(w, b.line.wire, id, b.desk.pending[id]) {
        if id == f.id {
          assert b.line.wire[|a.line.wire|] == f;
        } else {
          FrameStays(w, a.line.wire, b.line.wire, id, a.desk.pending[id]);
        }
      }
    }
  }

  // --- sending ------------------------------------------------------------------------------

  lemma PlainBears(w: World, t: Transport, data: bytes, oldId: int64)
    ensures var sent := SendPlain(w, t, data, oldId).1; Bears(w, t, sent) && sent.desk == t.desk
  {
    hide Issue, Bears;
    QuietBears(w, t, SendPlain(w, t, data, oldId).1);
  }

  lemma SealedBears(w: World, t: Transport, data: bytes, oldId: int64, isService: bool)
    ensures Bears(w, t, SendSealed(w, t, data, oldId, isService).1)
  {
    var sent := SendSealed(w, t, data, oldId, isService).1;
    SealedFrame(w, t, data, oldId, isService);
    hide SendSealed, Bears, Longer;
    if isService { LongerByOne(t.line.wire, sent.line.wire); QuietBears(w, t, sent); }
    else { HeldBears(w, t, sent, sent.line.wire[|t.line.wire|], data); }
  }

  lemma LongerByOne(a: seq<Frame>, b: seq<Frame>)
    requires |b| == |a| + 1 && b[..|a|] == a
    ensures Longer(a, b)
  {
  }

  /** The frame a message under the key goes out in. */
  lemma SealedFrame(w: World, t: Transport, data: bytes, oldId: int64, isService: bool)
    ensures var sent := SendSealed(w, t, data, oldId, isService).1;
            && |sent.line.wire| == |t.line.wire| + 1
            && (var f := sent.line.wire[|t.line.wire|];
                && sent.line.wire == t.line.wire + [f] && sent.line.wire[..|t.line.wire|] == t.line.wire
                && f.Sealed? && f.content == !isService
                && f.body == (if |data| > 255 then w.gzip(data) else data)
                && sent.desk.pending == if isService then t.desk.pending else t.desk.pending[f.id := data])
  {
    hide Issue, Count;
  }

  lemma ServiceBears(w: World, t: Transport, data: bytes)
    ensures Bears(w, t, SendService(w, t, data).1)
  {
    hide SendPlain, SendSealed, Bears;
    PlainBears(w, t, data, 0);
    SealedBears(w, t, data, 0, true);
    SameBears(w, t);
  }

  lemma SameBears(w: World, t: Transport)
    ensures Bears(w, t, t)
  {
  }

  lemma FlushBears(w: World, t: Transport)
    ensures Bears(w, t, Flush(w, t))
  {
    hide SendService, Bears, AckBody;
    var emptied := t.(acks := []);
    SameBears(w, t);
    ServiceBears(w, emptied, AckBody(t.acks));
    QuietBears(w, t, emptied);
    if t.acks != [] && t.initialized { BearsTwice(w, t, emptied, Flush(w, t)); }
  }

  lemma ContentBears(w: World, t: Transport, data: bytes, oldId: int64)
    ensures Bears(w, t, SendContent(w, t, data, oldId).1)
  {
    hide SendPlain, SendSealed, Flush, Bears;
    SameBears(w, t);
    PlainBears(w, t, data, oldId);
    var sent := SendPlain(w, t, data, oldId).1;
    QuietBears(w, sent, sent.(desk := Settle(sent.desk, data)));
    FlushBears(w, t);
    SealedBears(w, Flush(w, t), data, oldId, false);
    var after := SendContent(w, t, data, oldId).1;
    if !t.keyed { BearsTwice(w, t, sent, after); }
    else if data != [] { BearsTwice(w, t, Flush(w, t), after); }
  }

  lemma SubmitBears(w: World, t: Transport, data: bytes)
    ensures Bears(w, t, Submit(w, t, data).1)
  {
    hide SendContent, Bears;
    var asked := t.(desk := Ask(t.desk, data));
    QuietBears(w, t, asked);
    ContentBears(w, asked, data, 0);
    BearsTwice(w, t, asked, Submit(w, t, data).1);
  }

  // --- sending again ------------------------------------------------------------------------

  lemma ResendOneBears(w: World, t: Transport, shelf: Shelf, key: int64)
    ensures Bears(w, t, ResendOne(w, t, shelf, key))
  {
    hide SendContent, Bears;
    var taken := t.(desk := Unshelve(t.desk, shelf, key));
    QuietBears(w, t, taken);
    ContentBears(w, taken, Take(On(t.desk, shelf), key), key);
    BearsTwice(w, t, taken, ResendOne(w, t, shelf, key));
  }

  lemma {:induction false} ResendBears(w: World, t: Transport, shelf: Shelf, keys: seq<int64>)
    ensures Bears(w, t, Resend(w, t, shelf, keys))
    decreases |keys|
  {
    hide ResendOne, Bears;
    SameBears(w, t);
    if keys != [] {
      var one := ResendOne(w, t, shelf, keys[0]);
      ResendOneBears(w, t, shelf, keys[0]);
      ResendBears(w, one, shelf, keys[1..]);
      BearsTwice(w, t, one, Resend(w, t, shelf, keys));
    }
  }

  /** Only the wire and the pending table matter. */
  lemma AsideBears(w: World, a: Transport, b: Transport)
    requires b.line.wire == a.line.wire && b.desk.pending == a.desk.pending
    ensures Bears(w, a, b)
  {
    QuietBears(w, a, b);
  }

  lemma RejectionBears(w: World, t: Transport, code: int32, badId: int64, serverId: int64, session: int64, salt: int64)
    ensures Bears(w, t, BadMsg(w, t, code, badId, serverId, session, salt))
  {
    var c := Save(Correct(w, t, code, serverId, session, salt));
    assert c.line.wire == t.line.wire && c.desk == t.desk;
    hide SendContent, Bears, Correct;
    var taken := c.(desk := c.desk.(pending := c.desk.pending - {badId}));
    QuietBears(w, t, taken);
    ContentBears(w, taken, Take(c.desk.pending, badId), badId);
    BearsTwice(w, t, taken, BadMsg(w, t, code, badId, serverId, session, salt));
  }

  lemma CheckBears(w: World, t: Transport)
    ensures Bears(w, t, CheckAuthorization(w, t))
  {
    hide Submit, Bears;
    SameBears(w, t);
    SubmitBears(w, t, w.getUsers);
    var sent := Submit(w, t, w.getUsers).1;
    AsideBears(w, sent, sent.(authCheck := Submit(w, t, w.getUsers).0));
    if t.user != 0 && t.isMain { BearsTwice(w, t, sent, CheckAuthorization(w, t)); }
  }

  lemma LoginBears(w: World, t: Transport, user: int64)
    ensures Bears(w, t, Authorized(w, t, user))
  {
    hide CheckAuthorization, Bears;
    var s := Save(t.(user := user));
    AsideBears(w, t, s);
    CheckBears(w, s);
    BearsTwice(w, t, s, CheckAuthorization(w, s));
  }

  lemma ConfigBears(w: World, t: Transport, keys: seq<int64>)
    ensures Bears(w, t, Configured(w, t, keys))
  {
    hide Resend, CheckAuthorization, Bears;
    var s := Save(t);
    var r := Resend(w, s, Migration, keys);
    var i := r.(initialized := true);
    AsideBears(w, t, s);
    ResendBears(w, s, Migration, keys);
    AsideBears(w, r, i);
    CheckBears(w, i);
    BearsTwice(w, t, s, r);
    BearsTwice(w, t, r, i);
    BearsTwice(w, t, i, CheckAuthorization(w, i));
  }

  lemma TickBears(w: World, t: Transport, keys: seq<int64>, ping: bytes)
    ensures Bears(w, t, Tick(w, t, keys, ping))
  {
    hide Resend, Flush, SendService, Bears, Bodies;
    var kept := if |t.desk.pending| >= FORGET_AT then t.(desk := Forget(t.desk)) else t;
    var r := Resend(w, kept, Flood, keys);
    var f := Flush(w, r);
    QuietBears(w, t, kept);
    ResendBears(w, kept, Flood, keys);
    FlushBears(w, r);
    AsideBears(w, f, Save(f));
    ServiceBears(w, Save(f), ping);
    BearsTwice(w, t, kept, r);
    BearsTwice(w, t, r, f);
    BearsTwice(w, t, f, Save(f));
    BearsTwice(w, t, Save(f), Tick(w, t, keys, ping));
  }

  lemma ResetBears(w: World, t: Transport, connected: bool)
    ensures Bears(w, t, Reset(w, t, connected))
  {
    hide Flush, Bears, Bodies;
    AsideBears(w, t, Save(t));
    FlushBears(w, Save(t));
    var stopped := if connected then Flush(w, Save(t)) else Save(t);
    if connected { BearsTwice(w, t, Save(t), stopped); }
    QuietBears(w, stopped, Reset(w, t, connected));
    BearsTwice(w, t, stopped, Reset(w, t, connected));
  }

  lemma ErrorBears(w: World, t: Transport, code: int32, message: string, id: int64, connected: bool)
    ensures Bears(w, t, AfterError(w, t, code, message, id, connected))
  {
    hide Reset, Bears, Classify;
    ResetBears(w, t, connected);
    if Classify(code, message) != Unauthorized { QuietBears(w, t, AfterError(w, t, code, message, id, connected)); }
  }

  lemma NewKeyBears(w: World, t: Transport, session: int64, salt: int64, offset: int32, reply: bytes)
    ensures Bears(w, t, KeyDerived(w, t, session, salt, offset, reply))
  {
    hide SendPlain, Bears;
    var line := WireTrace.Restart(t.line, session).(salt := salt, offset := offset);
    AsideBears(w, t, t.(keyed := true, line := line));
    PlainBears(w, t.(keyed := true, line := line), reply, 0);
    BearsTwice(w, t, t.(keyed := true, line := line), KeyDerived(w, t, session, salt, offset, reply));
  }

  lemma NotesBear(w: World, t: Transport, e: Event)
    requires e.Excluded? || e.Received? || e.Reply? || e.Dropped? || e.Stored? || e.Reloaded?
    ensures Bears(w, t, Step(w, t, e))
  {
    hide Bears;
    QuietBears(w, t, Step(w, t, e));
  }

  /** Every event keeps each pending request in a frame of its id. */
  lemma StepBears(w: World, t: Transport, e: Event)
    ensures Bears(w, t, Step(w, t, e))
  {
    hide Submit, SendService, SendPlain, BadMsg, Configured, Authorized, Tick, Flush, KeyDerived, Reset, AfterError;
    hide Bears;
    match e
    case Request(body) => SubmitBears(w, t, body);
    case Service(body) => ServiceBears(w, t, body);
    case Handshake(body) => PlainBears(w, t, body, 0);
    case Error(code, message, id, connected) => ErrorBears(w, t, code, message, id, connected);
    case Rejection(code, badId, serverId, session, salt) => RejectionBears(w, t, code, badId, serverId, session, salt);
    case Config(keys) => ConfigBears(w, t, keys);
    case Login(user) => LoginBears(w, t, user);
    case Timer(keys, ping) => TickBears(w, t, keys, ping);
    case Acknowledge => FlushBears(w, t);
    case NewKey(session, salt, offset, reply) => NewKeyBears(w, t, session, salt, offset, reply);
    case Stopped(connected) => ResetBears(w, t, connected);
    case _ => NotesBear(w, t, e);
  }

  lemma {:induction false} RunBears(w: World, t: Transport, events: seq<Event>)
    ensures Bears(w, t, Steps(w, t, events))
    decreases |events|
  {
    hide Step, Bears;
    SameBears(w, t);
    if events != [] {
      var before := Steps(w, t, events[..|events| - 1]);
      RunBears(w, t, events[..|events| - 1]);
      StepBears(w, before, events[|events| - 1]);
      BearsTwice(w, t, before, Steps(w, t, events));
    }
  }

  /** Over every run whatever -- first sends, rejections, replays of either shelf, reconnections --
      a request that is pending went out under its id as it was made: itself up to 255 bytes, and
      what gzip makes of it beyond. */
  lemma PendingIsOnTheWire(w: World, saved: Saved, isMain: bool, events: seq<Event>, id: int64)
    requires var d := Steps(w, Fresh(saved, isMain), events).desk; id in d.pending && d.pending[id] != []
    ensures var t := Steps(w, Fresh(saved, isMain), events); InFrame(w, t.line.wire, id, t.desk.pending[id])
  {
    hide Steps;
    assert Carried(w, Fresh(saved, isMain));
    RunBears(w, Fresh(saved, isMain), events);
  }
}
