/** What the transport's runs keep: the numbering of everything written, and that no request
    takes another's place. */
module TransportSafety {
  import opened Integers
  import opened Bytes
  import opened WireTrace
  import opened RequestLedger
  import opened MtTransport

  /** The frames of a run are of the session it began for, and so is a key in use. */
  ghost predicate SessionOk(t: Transport) {
    && (forall i :: 0 <= i < |t.line.wire| && t.line.wire[i].Sealed? ==>
          t.line.wire[i].run < |t.line.runs| && t.line.wire[i].session == t.line.runs[t.line.wire[i].run].session)
    && t.line.runs != []
    && (t.keyed ==> t.line.session == t.line.runs[Run(t.line)].session)
  }

  ghost predicate SavedOk(t: Transport) {
    t.saved.last % 4 == 0 && t.saved.last <= MAX_STAMP + 4 * |t.line.wire|
  }

  ghost predicate Sound(t: Transport) {
    LineOk(t.line) && SavedOk(t) && SessionOk(t)
  }

  /** Nothing written is unwritten, and no run or epoch is taken back. */
  ghost predicate Extends(a: Line, b: Line) {
    && |a.wire| <= |b.wire| && b.wire[..|a.wire|] == a.wire
    && |a.runs| <= |b.runs| && b.runs[..|a.runs|] == a.runs
    && a.epoch <= b.epoch
  }

  predicate IsContent(f: Frame) {
    f.Sealed? && f.content
  }

  ghost predicate OnWire(wire: seq<Frame>, id: int64) {
    exists i :: 0 <= i < |wire| && IsContent(wire[i]) && wire[i].id == id
  }

  /** Every pending request went out in a content frame under the id it is pending under. */
  ghost predicate Covered(t: Transport) {
    forall id :: id in t.desk.pending ==> OnWire(t.line.wire, id)
  }

  /** No two content frames carry one id. */
  ghost predicate Distinct(wire: seq<Frame>) {
    forall i, j :: 0 <= i < j < |wire| && IsContent(wire[i]) && IsContent(wire[j]) ==> wire[i].id != wire[j].id
  }

  /** On the way from a to b no request is overwritten unless an id is used twice. */
  ghost predicate Safe(a: Transport, b: Transport) {
    && Extends(a.line, b.line)
    && (Covered(a) ==> Covered(b) && (Distinct(b.line.wire) ==> b.desk.lost == a.desk.lost))
  }

  lemma ExtendsTwice(a: Line, b: Line, c: Line)
    requires Extends(a, b) && Extends(b, c)
    ensures Extends(a, c)
  {
  }

  lemma DistinctPrefix(wire: seq<Frame>, n: nat)
    requires n <= |wire| && Distinct(wire)
    ensures Distinct(wire[..n])
  {
  }

  lemma SafeTwice(a: Transport, b: Transport, c: Transport)
    requires Safe(a, b) && Safe(b, c)
    ensures Safe(a, c)
  {
    ExtendsTwice(a.line, b.line, c.line);
    if Distinct(c.line.wire) { DistinctPrefix(c.line.wire, |b.line.wire|); }
    hide Covered, Distinct;
  }

  /** Where nothing new is pending and nothing overwritten. */
  lemma QuietIsSafe(a: Transport, b: Transport)
    requires Extends(a.line, b.line) && b.desk.lost == a.desk.lost
    requires forall id :: id in b.desk.pending ==> id in a.desk.pending
    ensures Safe(a, b)
  {
    if Covered(a) {
      forall id | id in b.desk.pending ensures OnWire(b.line.wire, id) { StaysOnWire(a.line, b.line, id); }
    }
  }

  lemma StaysOnWire(a: Line, b: Line, id: int64)
    requires Extends(a, b)
    ensures OnWire(a.wire, id) ==> OnWire(b.wire, id)
  {
    forall i | 0 <= i < |a.wire| ensures b.wire[i] == a.wire[i] { assert b.wire[..|a.wire|][i] == a.wire[i]; }
    if OnWire(a.wire, id) {
      var i :| 0 <= i < |a.wire| && IsContent(a.wire[i]) && a.wire[i].id == id;
      assert IsContent(b.wire[i]) && b.wire[i].id == id;
    }
  }

  // --- sending ------------------------------------------------------------------------------

  lemma RenameFrame(t: Transport, oldId: int64, newId: int64)
    ensures var r := Rename(t, oldId, newId);
            r.line == t.line && r.desk == t.desk && r.keyed == t.keyed && r.saved == t.saved
  {
  }

  lemma WrittenExtends(l: Line, after: Line)
    requires after.runs == l.runs && after.epoch == l.epoch && |after.wire| == |l.wire| + 1
             && after.wire[..|l.wire|] == l.wire
    ensures Extends(l, after)
  {
  }

  lemma SendPlainKeeps(w: World, t: Transport, data: bytes, oldId: int64)
    requires Sound(t)
    ensures var sent := SendPlain(w, t, data, oldId).1;
            Sound(sent) && Safe(t, sent) && sent.desk == t.desk && sent.keyed == t.keyed
  {
    hide LineOk, Issue, Rename, Safe, Extends;
    var line := WritePlain(t.line, w.clock, data);
    var sent := SendPlain(w, t, data, oldId).1;
    IssueFrame(t.line, w.clock);
    PlainKeepsOk(t.line, w.clock, data);
    RenameFrame(t.(line := line), oldId, line.last);
    if data != [] { WrittenExtends(t.line, line); } else { SameExtends(t.line); }
    QuietIsSafe(t, sent);
  }

  lemma SameExtends(l: Line)
    ensures Extends(l, l)
  {
  }

  /** A frame under the key: of the session the key is for. */
  lemma SealedSession(t: Transport, line: Line, f: Frame)
    requires SessionOk(t) && t.keyed && f.Sealed? && f.run == Run(t.line) && f.session == t.line.session
    requires line.wire == t.line.wire + [f] && line.runs == t.line.runs && line.session == t.line.session
    ensures SessionOk(t.(line := line))
  {
  }

  lemma SealedIsSound(w: World, t: Transport, data: bytes, oldId: int64, isService: bool)
    requires Sound(t) && t.keyed
    ensures Sound(SendSealed(w, t, data, oldId, isService).1)
  {
    hide LineOk, Issue, Rename, Count, SessionOk;
    var line := Seal(t.line, w.clock, Packed(w, data), !isService);
    var desk := if isService then t.desk else Hold(t.desk, line.last, data);
    IssueFrame(t.line, w.clock);
    SealKeepsOk(t.line, w.clock, Packed(w, data), !isService);
    SealedSession(t, line, line.wire[|t.line.wire|]);
    RenameFrame(t.(line := line, desk := desk), oldId, line.last);
    SessionFrame(t.(line := line), SendSealed(w, t, data, oldId, isService).1);
  }

  lemma SessionFrame(a: Transport, b: Transport)
    requires SessionOk(a) && a.line == b.line && a.keyed == b.keyed
    ensures SessionOk(b)
  {
  }

  lemma EmptyBody()
    ensures Body([]) == multiset{}
  {
  }

  lemma LastIsNew(wire: seq<Frame>, f: Frame)
    requires Distinct(wire + [f]) && IsContent(f)
    ensures !OnWire(wire, f.id)
  {
    forall i | 0 <= i < |wire| && IsContent(wire[i]) ensures wire[i].id != f.id {
      assert (wire + [f])[i] == wire[i] && (wire + [f])[|wire|] == f;
    }
  }

  /** The new frame carries the new request's id, and an earlier one any that was pending. */
  lemma HeldIsSafe(a: Transport, b: Transport, f: Frame, data: bytes)
    requires b.line.wire == a.line.wire + [f] && IsContent(f) && Extends(a.line, b.line)
    requires b.desk == Hold(a.desk, f.id, data)
    ensures Safe(a, b)
  {
    hide Body;
    if Covered(a) {
      forall id | id in b.desk.pending ensures OnWire(b.line.wire, id) {
        if id == f.id {
          assert IsContent(b.line.wire[|a.line.wire|]);
        } else {
          StaysOnWire(a.line, b.line, id);
        }
      }
      if Distinct(b.line.wire) {
        LastIsNew(a.line.wire, f);
        assert f.id !in a.desk.pending;
        EmptyBody();
      }
    }
  }

  lemma SealedIsSafe(w: World, t: Transport, data: bytes, oldId: int64, isService: bool)
    ensures Safe(t, SendSealed(w, t, data, oldId, isService).1)
  {
    hide Issue, Rename, Count, Safe, Hold, Extends;
    var line := Seal(t.line, w.clock, Packed(w, data), !isService);
    var desk := if isService then t.desk else Hold(t.desk, line.last, data);
    IssueFrame(t.line, w.clock);
    RenameFrame(t.(line := line, desk := desk), oldId, line.last);
    WrittenExtends(t.line, line);
    if isService {
      QuietIsSafe(t, SendSealed(w, t, data, oldId, isService).1);
    } else {
      HeldIsSafe(t, SendSealed(w, t, data, oldId, isService).1, line.wire[|t.line.wire|], data);
    }
  }

  lemma SameIsSafe(t: Transport)
    ensures Safe(t, t)
  {
  }

  lemma SendServiceKeeps(w: World, t: Transport, data: bytes)
    requires Sound(t)
    ensures var sent := SendService(w, t, data).1;
            Sound(sent) && Safe(t, sent) && sent.desk == t.desk && sent.keyed == t.keyed
  {
    hide Sound, Safe, Issue, Rename, SendPlain, Count;
    SameIsSafe(t);
    if !t.keyed {
      SendPlainKeeps(w, t, data, 0);
    } else if data != [] {
      SealedIsSound(w, t, data, 0, true);
      SealedIsSafe(w, t, data, 0, true);
      var line := Seal(t.line, w.clock, Packed(w, data), false);
      RenameFrame(t.(line := line), 0, line.last);
    }
  }

  /** The rest of the state plays no part. */
  lemma OnlyLineMatters(a: Transport, b: Transport)
    requires Sound(a) && a.line == b.line && a.saved == b.saved && a.keyed == b.keyed
    ensures Sound(b)
  {
    hide LineOk;
  }

  lemma FlushKeeps(w: World, t: Transport)
    requires Sound(t)
    ensures var sent := Flush(w, t);
            Sound(sent) && Safe(t, sent) && sent.desk == t.desk && sent.keyed == t.keyed
  {
    hide Sound, Safe, SendService, AckBody;
    SameIsSafe(t);
    var emptied := t.(acks := []);
    OnlyLineMatters(t, emptied);
    SameExtends(t.line);
    QuietIsSafe(t, emptied);
    SendServiceKeeps(w, emptied, AckBody(t.acks));
    if t.acks != [] && t.initialized { SafeTwice(t, emptied, Flush(w, t)); }
  }

  lemma SendContentKeeps(w: World, t: Transport, data: bytes, oldId: int64)
    requires Sound(t)
    ensures Sound(SendContent(w, t, data, oldId).1) && Safe(t, SendContent(w, t, data, oldId).1)
  {
    hide Sound, Safe, SendPlain, SendSealed, Flush, Settle;
    SameIsSafe(t);
    if !t.keyed {
      SendPlainKeeps(w, t, data, oldId);
      var sent := SendPlain(w, t, data, oldId).1;
      SettleIsQuiet(sent, data);
      OnlyLineMatters(sent, SendContent(w, t, data, oldId).1);
      SafeTwice(t, sent, SendContent(w, t, data, oldId).1);
    } else if data != [] {
      FlushKeeps(w, t);
      SealedIsSound(w, Flush(w, t), data, oldId, false);
      SealedIsSafe(w, Flush(w, t), data, oldId, false);
      SafeTwice(t, Flush(w, t), SendContent(w, t, data, oldId).1);
    }
  }

  lemma SettleIsQuiet(t: Transport, data: bytes)
    ensures Safe(t, t.(desk := Settle(t.desk, data)))
  {
    SameExtends(t.line);
    QuietIsSafe(t, t.(desk := Settle(t.desk, data)));
  }

  /** A change of the tables alone that neither holds nor overwrites. */
  lemma DeskIsQuiet(t: Transport, d: Desk)
    requires Sound(t) && d.lost == t.desk.lost && forall id :: id in d.pending ==> id in t.desk.pending
    ensures Sound(t.(desk := d)) && Safe(t, t.(desk := d))
  {
    hide LineOk;
    SameExtends(t.line);
    QuietIsSafe(t, t.(desk := d));
  }

  lemma SubmitKeeps(w: World, t: Transport, data: bytes)
    requires Sound(t)
    ensures Sound(Submit(w, t, data).1) && Safe(t, Submit(w, t, data).1)
  {
    hide Sound, Safe, SendContent;
    DeskIsQuiet(t, Ask(t.desk, data));
    SendContentKeeps(w, t.(desk := Ask(t.desk, data)), data, 0);
    SafeTwice(t, t.(desk := Ask(t.desk, data)), Submit(w, t, data).1);
  }

  // --- entry points -------------------------------------------------------------------------

  lemma SaveKeeps(t: Transport)
    requires Sound(t)
    ensures Sound(Save(t)) && Safe(t, Save(t))
  {
    SameExtends(t.line);
    QuietIsSafe(t, Save(t));
    hide Trace;
  }

  lemma LoadKeeps(t: Transport)
    requires Sound(t)
    ensures Sound(Load(t)) && Safe(t, Load(t))
  {
    QuietIsSafe(t, Load(t));
    var s := t.saved;
    ReloadKeepsOk(t.line, s.offset, s.sequence, s.last, s.session, s.salt);
    hide LineOk;
  }

  lemma ResendOneKeeps(w: World, t: Transport, shelf: Shelf, key: int64)
    requires Sound(t)
    ensures Sound(ResendOne(w, t, shelf, key)) && Safe(t, ResendOne(w, t, shelf, key))
  {
    hide Sound, Safe, SendContent, Take;
    var taken := t.(desk := Unshelve(t.desk, shelf, key));
    DeskIsQuiet(t, taken.desk);
    SendContentKeeps(w, taken, Take(On(t.desk, shelf), key), key);
    SafeTwice(t, taken, ResendOne(w, t, shelf, key));
  }

  lemma {:induction false} ResendKeeps(w: World, t: Transport, shelf: Shelf, keys: seq<int64>)
    requires Sound(t)
    ensures Sound(Resend(w, t, shelf, keys)) && Safe(t, Resend(w, t, shelf, keys))
    decreases |keys|
  {
    hide Sound, ResendOne, Safe;
    SameIsSafe(t);
    if keys != [] {
      ResendOneKeeps(w, t, shelf, keys[0]);
      ResendKeeps(w, ResendOne(w, t, shelf, keys[0]), shelf, keys[1..]);
      SafeTwice(t, ResendOne(w, t, shelf, keys[0]), Resend(w, t, shelf, keys));
    }
  }

  /** The rest of the state is free to change. */
  lemma AsideKeeps(t: Transport, after: Transport)
    requires Sound(t) && after.line == t.line && after.saved == t.saved && after.keyed == t.keyed
             && after.desk == t.desk
    ensures Sound(after) && Safe(t, after)
  {
    OnlyLineMatters(t, after);
    SameExtends(t.line);
    QuietIsSafe(t, after);
  }

  lemma CheckAuthorizationKeeps(w: World, t: Transport)
    requires Sound(t)
    ensures Sound(CheckAuthorization(w, t)) && Safe(t, CheckAuthorization(w, t))
  {
    hide Sound, Safe, Submit;
    SameIsSafe(t);
    SubmitKeeps(w, t, w.getUsers);
    var (id, sent) := Submit(w, t, w.getUsers);
    AsideKeeps(sent, sent.(authCheck := id));
    SafeTwice(t, sent, sent.(authCheck := id));
  }

  lemma AuthorizedKeeps(w: World, t: Transport, user: int64)
    requires Sound(t)
    ensures Sound(Authorized(w, t, user)) && Safe(t, Authorized(w, t, user))
  {
    hide Sound, Safe, CheckAuthorization, Save;
    var known := t.(user := user);
    AsideKeeps(t, known);
    SaveKeeps(known);
    CheckAuthorizationKeeps(w, Save(known));
    SafeTwice(t, known, Save(known));
    SafeTwice(t, Save(known), Authorized(w, t, user));
  }

  lemma ConfiguredKeeps(w: World, t: Transport, keys: seq<int64>)
    requires Sound(t)
    ensures Sound(Configured(w, t, keys)) && Safe(t, Configured(w, t, keys))
  {
    hide Sound, Safe, Resend, CheckAuthorization, Save;
    SaveKeeps(t);
    var resent := Resend(w, Save(t), Migration, keys);
    ResendKeeps(w, Save(t), Migration, keys);
    AsideKeeps(resent, resent.(initialized := true));
    CheckAuthorizationKeeps(w, resent.(initialized := true));
    SafeTwice(t, Save(t), resent);
    SafeTwice(t, resent, resent.(initialized := true));
    SafeTwice(t, resent.(initialized := true), Configured(w, t, keys));
  }

  lemma TickKeeps(w: World, t: Transport, keys: seq<int64>, ping: bytes)
    requires Sound(t)
    ensures Sound(Tick(w, t, keys, ping)) && Safe(t, Tick(w, t, keys, ping))
  {
    hide Sound, Safe, Resend, Flush, SendService, Bodies, Save;
    SameIsSafe(t);
    DeskIsQuiet(t, Forget(t.desk));
    var kept := if |t.desk.pending| >= FORGET_AT then t.(desk := Forget(t.desk)) else t;
    var resent := Resend(w, kept, Flood, keys);
    ResendKeeps(w, kept, Flood, keys);
    FlushKeeps(w, resent);
    SaveKeeps(Flush(w, resent));
    SendServiceKeeps(w, Save(Flush(w, resent)), ping);
    SafeTwice(t, kept, resent);
    SafeTwice(t, resent, Flush(w, resent));
    SafeTwice(t, Flush(w, resent), Save(Flush(w, resent)));
    SafeTwice(t, Save(Flush(w, resent)), Tick(w, t, keys, ping));
  }

  /** The clock's offset and the salt play no part in the numbering, nor the session where there
      is no key. */
  lemma NothingElseMatters(t: Transport, after: Transport)
    requires Sound(t) && after.desk == t.desk && after.saved == t.saved
    requires after.line == t.line.(offset := after.line.offset, readings := after.line.readings,
                                   salt := after.line.salt, session := after.line.session)
    requires after.keyed ==> t.keyed && after.line.session == t.line.session
    ensures Sound(after) && Safe(t, after)
  {
    QuietIsSafe(t, after);
    hide Contents, Earlier, Wrap32, Safe;
    forall i | 0 <= i < |after.line.wire| ensures Numbered(after.line, i) { assert Numbered(t.line, i); }
  }

  lemma SetBackKeeps(t: Transport)
    requires Sound(t)
    ensures Sound(t.(line := SetBack(t.line))) && Safe(t, t.(line := SetBack(t.line)))
  {
    SetBackKeepsOk(t.line);
    QuietIsSafe(t, t.(line := SetBack(t.line)));
    hide LineOk;
  }

  lemma RestartKeeps(t: Transport, session: int64, keyed: bool)
    requires Sound(t)
    ensures var after := t.(line := WireTrace.Restart(t.line, session), keyed := keyed); Sound(after) && Safe(t, after)
  {
    RestartKeepsOk(t.line, session);
    QuietIsSafe(t, t.(line := WireTrace.Restart(t.line, session), keyed := keyed));
    hide LineOk;
  }

  lemma CorrectKeeps(w: World, t: Transport, code: int32, serverId: int64, session: int64, salt: int64)
    requires Sound(t)
    ensures var c := Correct(w, t, code, serverId, session, salt); Sound(c) && Safe(t, c)
  {
    hide Sound, Safe, Wrap32, SetBack, WireTrace.Restart;
    SameIsSafe(t);
    var c := Correct(w, t, code, serverId, session, salt);
    if code == 16 || code == 17 {
      SetBackKeeps(t);
      NothingElseMatters(t.(line := SetBack(t.line)), c);
      SafeTwice(t, t.(line := SetBack(t.line)), c);
    } else if code == 32 || code == 33 {
      RestartKeeps(t, session, t.keyed);
    } else {
      NothingElseMatters(t, t.(line := t.line.(salt := salt)));
    }
  }

  lemma BadMsgKeeps(w: World, t: Transport, code: int32, badId: int64, serverId: int64, session: int64, salt: int64)
    requires Sound(t)
    ensures var after := BadMsg(w, t, code, badId, serverId, session, salt); Sound(after) && Safe(t, after)
  {
    hide Sound, Safe, SendContent, Take, Correct, Save;
    var corrected := Correct(w, t, code, serverId, session, salt);
    CorrectKeeps(w, t, code, serverId, session, salt);
    SaveKeeps(corrected);
    var c := Save(corrected);
    var taken := c.(desk := c.desk.(pending := c.desk.pending - {badId}));
    DeskIsQuiet(c, taken.desk);
    SendContentKeeps(w, taken, Take(c.desk.pending, badId), badId);
    SafeTwice(t, corrected, c);
    SafeTwice(t, c, taken);
    SafeTwice(t, taken, BadMsg(w, t, code, badId, serverId, session, salt));
  }

  lemma ResetKeeps(w: World, t: Transport, connected: bool)
    requires Sound(t)
    ensures Sound(Reset(w, t, connected)) && Safe(t, Reset(w, t, connected))
  {
    hide Sound, Safe, Flush, Bodies, Save;
    SaveKeeps(t);
    FlushKeeps(w, Save(t));
    var stopped := if connected then Flush(w, Save(t)) else Save(t);
    SafeTwice(t, Save(t), Flush(w, Save(t)));
    var nobody := stopped.(keyed := false, user := 0, line := stopped.line.(session := 0));
    NothingElseMatters(stopped, nobody);
    SaveKeeps(nobody);
    SafeTwice(t, stopped, nobody);
    SafeTwice(t, nobody, Save(nobody));
    SaveFrame(nobody);
    DeskIsQuiet(Save(nobody), ForgetAll(stopped.desk));
    var cleared := Save(nobody).(desk := ForgetAll(stopped.desk));
    SafeTwice(t, Save(nobody), cleared);
    AsideKeeps(cleared, Reset(w, t, connected));
    SafeTwice(t, cleared, Reset(w, t, connected));
  }

  lemma SaveFrame(t: Transport)
    ensures Save(t).desk == t.desk && Save(t).line == t.line && Save(t).keyed == t.keyed
  {
  }

  lemma KeyDerivedKeeps(w: World, t: Transport, session: int64, salt: int64, offset: int32, reply: bytes)
    requires Sound(t)
    ensures var after := KeyDerived(w, t, session, salt, offset, reply); Sound(after) && Safe(t, after)
  {
    hide Sound, Safe, SendPlain, WireTrace.Restart;
    RestartKeeps(t, session, true);
    var restarted := t.(line := WireTrace.Restart(t.line, session), keyed := true);
    var keyed := restarted.(line := restarted.line.(salt := salt, offset := offset));
    NothingElseMatters(restarted, keyed);
    SendPlainKeeps(w, keyed, reply, 0);
    SafeTwice(t, restarted, keyed);
    SafeTwice(t, keyed, KeyDerived(w, t, session, salt, offset, reply));
  }

  /** The request is not waiting already on the shelf that the error would put it on. */
  predicate FirstError(t: Transport, verdict: Verdict, id: int64) {
    && (verdict == AccountMoved && t.isMain ==> Take(t.desk.migration, id) == [])
    && (verdict == MustWait && id !in t.desk.noReplay ==> Take(t.desk.flood, id) == [])
  }

  lemma ErrorLosesNone(d: Desk, verdict: Verdict, isMain: bool, id: int64)
    ensures var after := OnError(d, verdict, isMain, id);
            && (forall k :: k in after.pending ==> k in d.pending)
            && (after.lost == d.lost
                || (verdict == AccountMoved && isMain && Take(d.migration, id) != [])
                || (verdict == MustWait && id !in d.noReplay && Take(d.flood, id) != []))
  {
  }

  lemma ErrorKeeps(w: World, t: Transport, code: int32, message: string, id: int64, connected: bool)
    requires Sound(t)
    ensures var after := AfterError(w, t, code, message, id, connected);
            && Sound(after) && Extends(t.line, after.line)
            && (FirstError(t, Classify(code, message), id) ==> Safe(t, after))
  {
    hide Sound, Reset, OnError, Classify, Covered, Distinct;
    ResetKeeps(w, t, connected);
    var verdict := Classify(code, message);
    if verdict != Unauthorized {
      var d := OnError(t.desk, verdict, t.isMain, id);
      ErrorLosesNone(t.desk, verdict, t.isMain, id);
      OnlyLineMatters(t, t.(desk := d));
      SameExtends(t.line);
      if FirstError(t, verdict, id) { DeskIsQuiet(t, d); }
    }
  }

  // --- runs ---------------------------------------------------------------------------------

  /** No error names a request that already waits on the shelf it would be put on. */
  predicate Orderly(t: Transport, e: Event) {
    e.Error? ==> FirstError(t, Classify(e.code, e.message), e.id)
  }

  ghost predicate OrderlyRun(w: World, t: Transport, events: seq<Event>) {
    forall i {:trigger events[i]} :: 0 <= i < |events| ==> Orderly(Steps(w, t, events[..i]), events[i])
  }

  lemma NotesKeep(t: Transport, id: int64)
    requires Sound(t)
    ensures Sound(Exclude(t, id)) && Safe(t, Exclude(t, id)) && Sound(Heard(t, id)) && Safe(t, Heard(t, id))
    ensures Sound(Answered(t, id)) && Safe(t, Answered(t, id))
  {
    hide Sound, Safe, Body;
    SameIsSafe(t);
    DeskIsQuiet(t, t.desk.(noReplay := t.desk.noReplay + {id}));
    DeskIsQuiet(t, Remove(t.desk, id));
    AsideKeeps(t, Heard(t, id));
  }

  /** Of every entry point: the trace stays numbered, and an orderly step overwrites no request
      unless two content frames carry one id. */
  lemma StepKeeps(w: World, t: Transport, e: Event)
    requires Sound(t)
    ensures Sound(Step(w, t, e)) && Extends(t.line, Step(w, t, e).line)
    ensures Orderly(t, e) ==> Safe(t, Step(w, t, e))
  {
    hide Sound, Covered, Distinct, Extends, Submit, SendService, SendPlain, AfterError, BadMsg, Configured,
         Authorized, Tick;
    hide Flush, KeyDerived, Reset, Load, Save, FirstError, Classify, Answered, Exclude, Heard;
    match e
    case Request(body) => SubmitKeeps(w, t, body);
    case Service(body) => SendServiceKeeps(w, t, body);
    case Handshake(body) => SendPlainKeeps(w, t, body, 0);
    case Excluded(id) => NotesKeep(t, id);
    case Received(id) => NotesKeep(t, id);
    case Reply(id) => NotesKeep(t, id);
    case Error(code, message, id, connected) => ErrorKeeps(w, t, code, message, id, connected);
    case Rejection(code, badId, serverId, session, salt) => BadMsgKeeps(w, t, code, badId, serverId, session, salt);
    case Config(keys) => ConfiguredKeeps(w, t, keys);
    case Login(user) => AuthorizedKeeps(w, t, user);
    case Timer(keys, ping) => TickKeeps(w, t, keys, ping);
    case Acknowledge => FlushKeeps(w, t);
    case NewKey(session, salt, offset, reply) => KeyDerivedKeeps(w, t, session, salt, offset, reply);
    case Stopped(connected) => ResetKeeps(w, t, connected);
    case Dropped => AsideKeeps(t, t.(initialized := false));
    case Stored => SaveKeeps(t);
    case Reloaded => LoadKeeps(t);
  }

  lemma {:induction false} RunStaysSound(w: World, t: Transport, events: seq<Event>)
    requires Sound(t)
    ensures Sound(Steps(w, t, events)) && Extends(t.line, Steps(w, t, events).line)
    decreases |events|
  {
    hide Sound, Step;
    if events != [] {
      var n := |events| - 1;
      RunStaysSound(w, t, events[..n]);
      StepKeeps(w, Steps(w, t, events[..n]), events[n]);
      ExtendsTwice(t.line, Steps(w, t, events[..n]).line, Steps(w, t, events).line);
    } else {
      SameExtends(t.line);
    }
  }

  lemma {:induction false} RunIsSafe(w: World, t: Transport, events: seq<Event>)
    requires Sound(t) && OrderlyRun(w, t, events)
    ensures Safe(t, Steps(w, t, events))
    decreases |events|
  {
    hide Sound, Orderly, Step, Safe;
    SameIsSafe(t);
    if events != [] {
      var n := |events| - 1;
      var before := events[..n];
      forall i | 0 <= i < n ensures Orderly(Steps(w, t, before[..i]), before[i]) {
        assert before[..i] == events[..i] && before[i] == events[i];
      }
      RunIsSafe(w, t, before);
      RunStaysSound(w, t, before);
      assert Orderly(Steps(w, t, before), events[n]);
      StepKeeps(w, Steps(w, t, before), events[n]);
      SafeTwice(t, Steps(w, t, before), Steps(w, t, events));
    }
  }

  /** The last id that was saved is one that could have been given out. */
  predicate Plausible(saved: Saved) {
    saved.last % 4 == 0 && saved.last <= MAX_STAMP
  }

  lemma FreshIsSound(saved: Saved, isMain: bool)
    requires Plausible(saved)
    ensures Sound(Fresh(saved, isMain)) && Covered(Fresh(saved, isMain))
  {
  }

  // --- epochs and runs ----------------------------------------------------------------------

  /** What sets the last id back. */
  predicate EndsEpoch(e: Event) {
    e.NewKey? || e.Reloaded? || (e.Rejection? && e.code in {16, 17, 32, 33})
  }

  /** Neither the id was set back nor the counter. */
  predicate GoesOn(a: Line, b: Line) {
    b.epoch == a.epoch && b.runs == a.runs
  }

  lemma SendsKeepEpoch(w: World, t: Transport, data: bytes, oldId: int64)
    ensures GoesOn(t.line, SendPlain(w, t, data, oldId).1.line)
    ensures GoesOn(t.line, SendService(w, t, data).1.line)
    ensures GoesOn(t.line, Flush(w, t).line)
    ensures GoesOn(t.line, SendContent(w, t, data, oldId).1.line)
  {
    hide Issue, Count, AckBody;
    IssueFrame(t.line, w.clock);
    var f := Flush(w, t);
    IssueFrame(f.line, w.clock);
  }

  lemma {:induction false} ResendKeepsEpoch(w: World, t: Transport, shelf: Shelf, keys: seq<int64>)
    ensures GoesOn(t.line, Resend(w, t, shelf, keys).line)
    decreases |keys|
  {
    hide SendContent, Take;
    if keys != [] {
      var taken := t.(desk := Unshelve(t.desk, shelf, keys[0]));
      SendsKeepEpoch(w, taken, Take(On(t.desk, shelf), keys[0]), keys[0]);
      ResendKeepsEpoch(w, ResendOne(w, t, shelf, keys[0]), shelf, keys[1..]);
    }
  }

  lemma CheckKeepsEpoch(w: World, t: Transport)
    ensures GoesOn(t.line, CheckAuthorization(w, t).line)
  {
    hide SendContent;
    SendsKeepEpoch(w, t.(desk := Ask(t.desk, w.getUsers)), w.getUsers, 0);
  }

  lemma TickKeepsEpoch(w: World, t: Transport, keys: seq<int64>, ping: bytes)
    ensures GoesOn(t.line, Tick(w, t, keys, ping).line)
  {
    hide Resend, Flush, SendService, Forget;
    var kept := if |t.desk.pending| >= FORGET_AT then t.(desk := Forget(t.desk)) else t;
    ResendKeepsEpoch(w, kept, Flood, keys);
    var resent := Resend(w, kept, Flood, keys);
    SendsKeepEpoch(w, resent, ping, 0);
    SendsKeepEpoch(w, Save(Flush(w, resent)), ping, 0);
  }

  lemma ResetKeepsEpoch(w: World, t: Transport, connected: bool)
    ensures GoesOn(t.line, Reset(w, t, connected).line)
  {
    hide Flush, ForgetAll;
    SendsKeepEpoch(w, Save(t), [], 0);
  }

  lemma RejectionEpoch(w: World, t: Transport, code: int32, badId: int64, serverId: int64, session: int64, salt: int64)
    ensures var after := BadMsg(w, t, code, badId, serverId, session, salt).line;
            && (after.epoch != t.line.epoch <==> code in {16, 17, 32, 33})
            && after.runs == t.line.runs + (if code == 32 || code == 33 then [Begin(0, session)] else [])
  {
    hide SendContent, Wrap32, Take;
    var c := Save(Correct(w, t, code, serverId, session, salt));
    SendsKeepEpoch(w, c.(desk := c.desk.(pending := c.desk.pending - {badId})), Take(c.desk.pending, badId), badId);
  }

  lemma NewKeyEpoch(w: World, t: Transport, session: int64, salt: int64, offset: int32, reply: bytes)
    ensures var after := KeyDerived(w, t, session, salt, offset, reply).line;
            after.epoch == t.line.epoch + 1 && after.runs == t.line.runs + [Begin(0, session)]
  {
    hide SendPlain;
    SendsKeepEpoch(w, t.(keyed := true,
                         line := WireTrace.Restart(t.line, session).(salt := salt, offset := offset)), reply, 0);
  }

  lemma ErrorKeepsEpoch(w: World, t: Transport, code: int32, message: string, id: int64, connected: bool)
    ensures GoesOn(t.line, AfterError(w, t, code, message, id, connected).line)
  {
    hide Reset, OnError, Classify;
    ResetKeepsEpoch(w, t, connected);
  }

  lemma ConfiguredKeepsEpoch(w: World, t: Transport, keys: seq<int64>)
    ensures GoesOn(t.line, Configured(w, t, keys).line)
  {
    hide Resend, CheckAuthorization;
    ResendKeepsEpoch(w, Save(t), Migration, keys);
    CheckKeepsEpoch(w, Resend(w, Save(t), Migration, keys).(initialized := true));
  }

  /** The runs that an event begins. */
  function Begun(t: Transport, e: Event): seq<Begin> {
    match e
    case NewKey(session, _, _, _) => [Begin(0, session)]
    case Rejection(code, _, _, session, _) => if code == 32 || code == 33 then [Begin(0, session)] else []
    case Reloaded => [Begin(t.saved.sequence, t.saved.session)]
    case _ => []
  }

  /** An event ends the epoch exactly when it is a new key, a reload, or a rejection that sets the
      last id back; and the runs it begins are these and no others. */
  lemma EpochEndsIff(w: World, t: Transport, e: Event)
    ensures Step(w, t, e).line.epoch != t.line.epoch <==> EndsEpoch(e)
    ensures Step(w, t, e).line.runs == t.line.runs + Begun(t, e)
  {
    hide SendPlain, SendService, SendContent, Flush, BadMsg, Configured, CheckAuthorization, Tick, Reset, OnError,
         Classify, KeyDerived, AfterError;
    match e
    case Request(body) => SendsKeepEpoch(w, t.(desk := Ask(t.desk, body)), body, 0);
    case Service(body) => SendsKeepEpoch(w, t, body, 0);
    case Handshake(body) => SendsKeepEpoch(w, t, body, 0);
    case Error(code, message, id, connected) => ErrorKeepsEpoch(w, t, code, message, id, connected);
    case Rejection(code, badId, serverId, session, salt) => RejectionEpoch(w, t, code, badId, serverId, session, salt);
    case Config(keys) => ConfiguredKeepsEpoch(w, t, keys);
    case Login(user) => CheckKeepsEpoch(w, Save(t.(user := user)));
    case Timer(keys, ping) => TickKeepsEpoch(w, t, keys, ping);
    case Acknowledge => SendsKeepEpoch(w, t, [], 0);
    case NewKey(session, salt, offset, reply) => NewKeyEpoch(w, t, session, salt, offset, reply);
    case Stopped(connected) => ResetKeepsEpoch(w, t, connected);
    case _ =>
  }

  ghost function AllBegun(w: World, t: Transport, events: seq<Event>): seq<Begin> {
    if events == [] then []
    else
      var before := events[..|events| - 1];
      AllBegun(w, t, before) + Begun(Steps(w, t, before), events[|events| - 1])
  }

  lemma {:induction false} RunsOfSteps(w: World, t: Transport, events: seq<Event>)
    ensures Steps(w, t, events).line.runs == t.line.runs + AllBegun(w, t, events)
    decreases |events|
  {
    hide Step, Begun;
    if events != [] {
      var before := events[..|events| - 1];
      RunsOfSteps(w, t, before);
      EpochEndsIff(w, Steps(w, t, before), events[|events| - 1]);
      var begun := Begun(Steps(w, t, before), events[|events| - 1]);
      assert t.line.runs + AllBegun(w, t, before) + begun == t.line.runs + (AllBegun(w, t, before) + begun);
    } else {
      assert t.line.runs + [] == t.line.runs;
    }
  }

  lemma {:induction false} EpochOfRun(w: World, t: Transport, events: seq<Event>)
    requires forall i :: 0 <= i < |events| ==> !EndsEpoch(events[i])
    ensures GoesOn(t.line, Steps(w, t, events).line)
    decreases |events|
  {
    hide Step;
    if events != [] {
      EpochOfRun(w, t, events[..|events| - 1]);
      EpochEndsIff(w, Steps(w, t, events[..|events| - 1]), events[|events| - 1]);
    }
  }

  // --- what runs keep -----------------------------------------------------------------------

  /** Over every run, reconnections included: of any two frames of one id epoch the later has the
      greater id, among the first 26 million; every id is divisible by four; and every frame is
      numbered twice what its run began to count from and the content frames since, plus one if
      it is content. A run begins at zero with a new key or a rejection 32 or 33, at the saved
      counter with a reload and at the start, and nowhere else. */
  lemma WireIsNumbered(w: World, saved: Saved, isMain: bool, events: seq<Event>, i: nat, j: nat)
    requires Plausible(saved)
    requires i < j < |Steps(w, Fresh(saved, isMain), events).line.wire|
    ensures var l := Steps(w, Fresh(saved, isMain), events).line;
            && (j < FRAME_LIMIT && l.wire[i].epoch == l.wire[j].epoch ==> l.wire[i].id < l.wire[j].id)
            && l.wire[i].id % 4 == 0 && l.wire[j].id % 4 == 0
            && l.runs == [Begin(saved.sequence, saved.session)] + AllBegun(w, Fresh(saved, isMain), events)
            && (l.wire[j].Sealed? ==>
                  && l.wire[j].run < |l.runs| && l.wire[j].session == l.runs[l.wire[j].run].session
                  && l.wire[j].seqno == Wrap32(2 * (l.runs[l.wire[j].run].count + Contents(l.wire, j, l.wire[j].run))
                                               + if l.wire[j].content then 1 else 0))
  {
    hide Step, Contents, Wrap32, AllBegun;
    FreshIsSound(saved, isMain);
    RunStaysSound(w, Fresh(saved, isMain), events);
    RunsOfSteps(w, Fresh(saved, isMain), events);
    var l := Steps(w, Fresh(saved, isMain), events).line;
    assert Earlier(l.wire[i], l.wire[j]) || j >= FRAME_LIMIT;
    assert Numbered(l, j);
  }

  /** Content frames of a session among the first n. */
  function ContentsOfSession(wire: seq<Frame>, n: nat, session: int64): nat
    requires n <= |wire|
  {
    if n == 0 then 0
    else
      var f := wire[n - 1];
      ContentsOfSession(wire, n - 1, session) + (if f.Sealed? && f.content && f.session == session then 1 else 0)
  }

  lemma {:induction false} SessionCounts(wire: seq<Frame>, n: nat, run: nat, session: int64)
    requires n <= |wire|
    requires forall i :: 0 <= i < n && wire[i].Sealed? ==> (wire[i].run == run <==> wire[i].session == session)
    ensures ContentsOfSession(wire, n, session) == Contents(wire, n, run)
  {
    if n > 0 { SessionCounts(wire, n - 1, run, session); }
  }

  /** The session an event draws, if it draws one. */
  function Drawn(e: Event): seq<int64> {
    match e
    case NewKey(session, _, _, _) => [session]
    case Rejection(code, _, _, session, _) => if code == 32 || code == 33 then [session] else []
    case _ => []
  }

  function AllDrawn(events: seq<Event>): seq<int64> {
    if events == [] then [] else AllDrawn(events[..|events| - 1]) + Drawn(events[|events| - 1])
  }

  /** Without reloads every run after the first is a session drawn, counted from zero. */
  lemma {:induction false} BegunAreDrawn(w: World, t: Transport, events: seq<Event>)
    requires forall i :: 0 <= i < |events| ==> !events[i].Reloaded?
    ensures |AllBegun(w, t, events)| == |AllDrawn(events)|
    ensures forall k :: 0 <= k < |AllDrawn(events)| ==> AllBegun(w, t, events)[k] == Begin(0, AllDrawn(events)[k])
    decreases |events|
  {
    hide Steps;
    if events != [] { BegunAreDrawn(w, t, events[..|events| - 1]); }
  }

  /** The numbering the protocol asks for: where no settings are read back and every session id
      drawn is a new one, each frame's number is twice the content frames before it in its
      session, plus one if it is content; only the session that was saved goes on from the
      counter saved with it. */
  lemma SessionIsNumbered(w: World, saved: Saved, isMain: bool, events: seq<Event>, j: nat)
    requires Plausible(saved) && forall i :: 0 <= i < |events| ==> !events[i].Reloaded?
    requires var drawn := [saved.session] + AllDrawn(events);
             forall a, b :: 0 <= a < b < |drawn| ==> drawn[a] != drawn[b]
    requires j < |Steps(w, Fresh(saved, isMain), events).line.wire|
    ensures var wire := Steps(w, Fresh(saved, isMain), events).line.wire;
            wire[j].Sealed? ==>
              wire[j].seqno == Wrap32(2 * ((if wire[j].session == saved.session then saved.sequence else 0)
                                           + ContentsOfSession(wire, j, wire[j].session))
                                      + if wire[j].content then 1 else 0)
  {
    hide Step, Contents, Wrap32, ContentsOfSession, AllBegun, AllDrawn;
    FreshIsSound(saved, isMain);
    RunStaysSound(w, Fresh(saved, isMain), events);
    RunsOfSteps(w, Fresh(saved, isMain), events);
    BegunAreDrawn(w, Fresh(saved, isMain), events);
    var l := Steps(w, Fresh(saved, isMain), events).line;
    var drawn := [saved.session] + AllDrawn(events);
    assert forall k :: 0 <= k < |l.runs| ==> l.runs[k].session == drawn[k];
    if l.wire[j].Sealed? {
      assert Numbered(l, j);
      SessionCounts(l.wire, j, l.wire[j].run, l.wire[j].session);
    }
  }

  /** Over every run in which no error finds its request already waiting and no two content frames
      carry one id, nothing is overwritten: not by rejections, replays, migrations, new keys or
      reconnections. */
  lemma NothingIsOverwritten(w: World, saved: Saved, isMain: bool, events: seq<Event>)
    requires Plausible(saved) && OrderlyRun(w, Fresh(saved, isMain), events)
    requires Distinct(Steps(w, Fresh(saved, isMain), events).line.wire)
    ensures Steps(w, Fresh(saved, isMain), events).desk.lost == multiset{}
  {
    hide Sound, OrderlyRun, Steps, Extends, Distinct;
    FreshIsSound(saved, isMain);
    RunIsSafe(w, Fresh(saved, isMain), events);
  }

  /** Within one epoch the ids are distinct of themselves. */
  lemma OneEpochIsDistinct(w: World, saved: Saved, isMain: bool, events: seq<Event>)
    requires Plausible(saved) && forall i :: 0 <= i < |events| ==> !EndsEpoch(events[i])
    requires |Steps(w, Fresh(saved, isMain), events).line.wire| <= FRAME_LIMIT
    ensures Distinct(Steps(w, Fresh(saved, isMain), events).line.wire)
  {
    hide Step, Numbered, Contents;
    FreshIsSound(saved, isMain);
    RunStaysSound(w, Fresh(saved, isMain), events);
    EpochOfRun(w, Fresh(saved, isMain), events);
    var l := Steps(w, Fresh(saved, isMain), events).line;
    assert forall i :: 0 <= i < |l.wire| ==> l.wire[i].epoch == 0;
    forall i, j | 0 <= i < j < |l.wire| ensures l.wire[i].id != l.wire[j].id { assert Earlier(l.wire[i], l.wire[j]); }
  }
}
