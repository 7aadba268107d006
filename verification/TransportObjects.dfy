/** libkg/tgtransport: the transport as it runs, on its own fields, against the functions of
    module MtTransport. */
module TransportObjects {
  import opened Integers
  import opened Bytes
  import opened WireTrace
  import opened RequestLedger
  import opened MtTransport

  class TgTransport {
    const world: World
    const isMain: bool
    var keyed: bool
    var initialized: bool
    var userId: int64
    var msgsToAck: seq<int64>
    var authCheckMsgId: int64
    var timeOffset: int32
    var sequence: int32
    var lastMessageId: int64
    var sessionId: int64
    var serverSalt: int64
    var pendingMessages: map<int64, bytes>
    var migrationMessages: map<int64, bytes>
    var floodMessages: map<int64, bytes>
    var noFloodReplay: set<int64>
    var settings: Saved
    var readings: nat
    ghost var wire: seq<Frame>
    ghost var epoch: nat
    ghost var runs: seq<Begin>
    ghost var asked: multiset<bytes>
    ghost var settled: multiset<bytes>
    ghost var lost: multiset<bytes>
    ghost var renames: seq<(int64, int64)>

    ghost function View(): Transport reads this {
      Transport.Transport(keyed, isMain, initialized, userId, msgsToAck, authCheckMsgId,
        Line(timeOffset, sequence, lastMessageId, sessionId, serverSalt, readings, wire, epoch, runs),
        Desk(pendingMessages, migrationMessages, floodMessages, noFloodReplay, asked, settled, lost),
        renames, settings)
    }

    constructor (world: World, isMain: bool, saved: Saved)
      ensures View() == Fresh(saved, isMain) && this.world == world
    {
      this.world, this.isMain := world, isMain;
      keyed, initialized, userId := saved.keyed, false, saved.user;
      msgsToAck, authCheckMsgId := [], 0;
      timeOffset, sequence, lastMessageId := saved.offset, saved.sequence, saved.last;
      sessionId, serverSalt, settings := saved.session, saved.salt, saved;
      pendingMessages, migrationMessages, floodMessages, noFloodReplay := map[], map[], map[], {};
      readings, wire, epoch, runs := 0, [], 0, [Begin(saved.sequence, saved.session)];
      asked, settled, lost, renames := multiset{}, multiset{}, multiset{}, [];
    }

    // --- numbering ----------------------------------------------------------------------------

    method ReadClock() returns (time: int)
      modifies this
      ensures time == world.clock(old(View()).line.readings)
      ensures View() == old(View()).(line := old(View()).line.(readings := old(View()).line.readings + 1))
    {
      time := world.clock(readings);
      readings := readings + 1;
    }

    method SetLastId(messageId: int64)
      modifies this
      ensures View() == old(View()).(line := old(View()).line.(last := messageId))
    {
      lastMessageId := messageId;
    }

    method GetNewMessageId() returns (messageId: int64)
      modifies this
      ensures View() == old(View()).(line := Issue(old(View()).line, world.clock))
      ensures messageId == View().line.last
    {
      hide Stamp, Wrap64;
      var time := ReadClock();
      messageId := Stamp(time + timeOffset);
      if lastMessageId >= messageId { messageId := Wrap64(lastMessageId + 4); }
      SetLastId(messageId);
    }

    method GenerateSequence(isContent: bool) returns (seqno: int32)
      modifies this
      ensures seqno == Count(old(View()).line.sequence, isContent).0
      ensures var l := old(View()).line;
              View() == old(View()).(line := l.(sequence := Count(l.sequence, isContent).1))
    {
      hide Wrap32;
      if isContent {
        seqno := Wrap32(sequence * 2 + 1);
        sequence := Wrap32(sequence + 1);
        return;
      }
      return Wrap32(sequence * 2);
    }

    // --- sending ------------------------------------------------------------------------------

    method BroadcastMessageChange(oldMsg: int64, newMsg: int64)
      modifies this`authCheckMsgId, this`renames
      ensures View() == Rename(old(View()), oldMsg, newMsg)
    {
      if oldMsg == 0 { return; }
      if authCheckMsgId == oldMsg { authCheckMsgId := newMsg; }
      renames := renames + [(oldMsg, newMsg)];
    }

    method SendPlainMessage(data: bytes, oldMid: int64) returns (messageId: int64)
      modifies this
      ensures (messageId, View()) == SendPlain(world, old(View()), data, oldMid)
    {
      hide Issue;
      if data == [] { return 0; }
      messageId := GetNewMessageId();
      wire := wire + [Plain(messageId, data, epoch)];
      IssueFrame(old(View().line), world.clock);
      BroadcastMessageChange(oldMid, messageId);
    }

    ghost method Wrote(f: Frame)
      modifies this
      ensures View() == old(View()).(line := old(View()).line.(wire := old(View()).line.wire + [f]))
    {
      wire := wire + [f];
    }

    method Insert(messageId: int64, data: bytes)
      modifies this
      ensures View() == old(View()).(desk := Hold(old(View()).desk, messageId, data))
    {
      hide Body, Take;
      lost := lost + Body(Take(pendingMessages, messageId));
      pendingMessages := pendingMessages[messageId := data];
    }

    /** The frame: number it, hold the request, tell the client of its new id. */
    method WriteSealed(data: bytes, oldMid: int64, isService: bool) returns (messageId: int64)
      modifies this
      ensures (messageId, View()) == SendSealed(world, old(View()), data, oldMid, isService)
    {
      hide Issue, Count, Packed, Hold, Rename;
      IssueFrame(old(View()).line, world.clock);
      var packed := Packed(world, data);
      messageId := GetNewMessageId();
      var seqno := GenerateSequence(!isService);
      ghost var frame := Sealed(messageId, seqno, sessionId, serverSalt, packed, !isService, epoch,
                                WireTrace.Run(View().line));
      Wrote(frame);
      if !isService { Insert(messageId, data); }
      BroadcastMessageChange(oldMid, messageId);
    }

    method SendMTServiceObject(data: bytes) returns (messageId: int64)
      modifies this
      ensures (messageId, View()) == SendService(world, old(View()), data)
    {
      hide MtTransport.SendPlain, SendSealed;
      if !keyed {
        messageId := SendPlainMessage(data, 0);
      } else if data == [] {
        messageId := 0;
      } else {
        messageId := WriteSealed(data, 0, true);
      }
    }

    method SendMsgsAck()
      modifies this
      ensures View() == Flush(world, old(View()))
    {
      hide SendService, AckBody;
      if msgsToAck == [] || !initialized { return; }
      var body := AckBody(msgsToAck);
      msgsToAck := [];
      var _ := SendMTServiceObject(body);
    }

    method SendMTMessage(data: bytes, oldMid: int64) returns (messageId: int64)
      modifies this
      ensures (messageId, View()) == SendContent(world, old(View()), data, oldMid)
    {
      hide MtTransport.SendPlain, SendSealed, Flush, Body;
      if !keyed {
        messageId := SendPlainMessage(data, oldMid);
        settled := settled + Body(data);
      } else if data == [] {
        messageId := 0;
      } else {
        SendMsgsAck();
        messageId := WriteSealed(data, oldMid, false);
      }
    }

    method SendMTObject(data: bytes) returns (messageId: int64)
      modifies this
      ensures (messageId, View()) == Submit(world, old(View()), data)
    {
      hide SendContent, Body;
      asked := asked + Body(data);
      messageId := SendMTMessage(data, 0);
    }

    // --- settings -----------------------------------------------------------------------------

    method SaveSession()
      modifies this`settings
      ensures View() == Save(old(View()))
    {
      settings := Saved(keyed, timeOffset, sequence, lastMessageId, sessionId, serverSalt, userId);
    }

    method LoadNumbering()
      modifies this
      ensures View() == old(View()).(line := old(View()).line.(offset := old(settings).offset,
                sequence := old(settings).sequence, last := old(settings).last))
    {
      timeOffset, sequence, lastMessageId := settings.offset, settings.sequence, settings.last;
    }

    method LoadIdentity()
      modifies this
      ensures View() == old(View()).(line := old(View()).line.(session := old(settings).session,
                salt := old(settings).salt))
    {
      sessionId, serverSalt := settings.session, settings.salt;
    }

    method LoadAccount()
      modifies this
      ensures View() == old(View()).(keyed := old(settings).keyed, user := old(settings).user)
    {
      keyed, userId := settings.keyed, settings.user;
    }

    /** What is read back was saved in another epoch and begins a run of its own. */
    ghost method BeginReload()
      modifies this
      ensures View() == old(View()).(line := old(View()).line.(epoch := old(View()).line.epoch + 1,
                runs := old(View()).line.runs + [Begin(old(settings).sequence, old(settings).session)]))
    {
      epoch, runs := epoch + 1, runs + [Begin(settings.sequence, settings.session)];
    }

    method LoadSession()
      modifies this
      ensures View() == Load(old(View()))
    {
      BeginReload();
      LoadAccount();
      LoadNumbering();
      LoadIdentity();
    }

    method Stop(connected: bool)
      modifies this
      ensures View() == if connected then Flush(world, Save(old(View()))) else Save(old(View()))
    {
      hide Flush;
      SaveSession();
      if connected { SendMsgsAck(); }
    }

    method ClearIdentity()
      modifies this
      ensures View() == old(View()).(keyed := false, user := 0, line := old(View()).line.(session := 0))
    {
      keyed, sessionId, userId := false, 0, 0;
    }

    method ClearPending()
      modifies this
      ensures View() == old(View()).(desk := Forget(old(View()).desk))
    {
      hide Bodies;
      settled := settled + Bodies(pendingMessages);
      pendingMessages, noFloodReplay := map[], {};
    }

    method ClearMigration()
      modifies this
      ensures View() == old(View()).(desk := old(View()).desk.(migration := map[],
                settled := old(View()).desk.settled + Bodies(old(View()).desk.migration)))
    {
      hide Bodies;
      settled := settled + Bodies(migrationMessages);
      migrationMessages := map[];
    }

    method ClearConnection()
      modifies this
      ensures View() == old(View()).(acks := [], initialized := false)
    {
      msgsToAck := [];
      initialized := false;
    }

    method ResetSession(connected: bool)
      modifies this
      ensures View() == Reset(world, old(View()), connected)
    {
      hide Flush, Bodies, View;
      Stop(connected);
      ClearIdentity();
      SaveSession();
      ClearPending();
      ClearMigration();
      ClearConnection();
    }

    // --- what arrives -------------------------------------------------------------------------

    method NoteReceived(messageId: int64)
      modifies this`msgsToAck
      ensures View() == Heard(old(View()), messageId)
    {
      if messageId !in msgsToAck { msgsToAck := msgsToAck + [messageId]; }
    }

    method DoNotReplay(messageId: int64)
      modifies this`noFloodReplay
      ensures View() == Exclude(old(View()), messageId)
    {
      if messageId != 0 { noFloodReplay := noFloodReplay + {messageId}; }
    }

    method RemovePending(messageId: int64)
      modifies this`pendingMessages, this`settled
      ensures View() == old(View()).(desk := Remove(old(View().desk), messageId))
    {
      hide Body, Take;
      settled := settled + Body(Take(pendingMessages, messageId));
      pendingMessages := pendingMessages - {messageId};
    }

    ghost method Overwrote(body: bytes)
      modifies this
      ensures View() == old(View()).(desk := old(View()).desk.(lost := old(View()).desk.lost + Body(body)))
    {
      hide Body;
      lost := lost + Body(body);
    }

    method ShelveForMigration(messageId: int64)
      modifies this
      ensures View() == old(View()).(desk := Shelve(old(View().desk), Migration, messageId))
    {
      hide Body, Take;
      Overwrote(Take(migrationMessages, messageId));
      migrationMessages := migrationMessages[messageId := Take(pendingMessages, messageId)];
      pendingMessages := pendingMessages - {messageId};
    }

    method ShelveForFlood(messageId: int64)
      modifies this
      ensures View() == old(View()).(desk := Shelve(old(View().desk), Flood, messageId))
    {
      hide Body, Take;
      Overwrote(Take(floodMessages, messageId));
      floodMessages := floodMessages[messageId := Take(pendingMessages, messageId)];
      pendingMessages := pendingMessages - {messageId};
    }

    method HandleRpcError(errorCode: int32, errorMessage: string, messageId: int64, connected: bool)
      modifies this
      ensures View() == AfterError(world, old(View()), errorCode, errorMessage, messageId, connected)
    {
      hide Body, Take, Contains, StartsWith, Reset, Shelve;
      if Contains(errorMessage, "_MIGRATE_") {
        if StartsWith(errorMessage, "FILE_") {
          RemovePending(messageId);
          return;
        }
        if !isMain {
          RemovePending(messageId);
          return;
        }
        ShelveForMigration(messageId);
        return;
      }
      if Contains(errorMessage, "FLOOD_WAIT_") {
        if messageId in noFloodReplay {
          noFloodReplay := noFloodReplay - {messageId};
          RemovePending(messageId);
        } else {
          ShelveForFlood(messageId);
        }
        return;
      }
      if errorMessage == "SESSION_PASSWORD_NEEDED" {
        RemovePending(messageId);
        return;
      }
      if errorCode == 401 {
        ResetSession(connected);
        return;
      }
      RemovePending(messageId);
    }

    method ForgetLastId()
      modifies this
      ensures View() == old(View()).(line := SetBack(old(View()).line))
    {
      lastMessageId, epoch := 0, epoch + 1;
    }

    method SetSession(session: int64)
      modifies this
      ensures View() == old(View()).(line := old(View()).line.(sequence := 0, session := session,
                runs := old(View()).line.runs + [Begin(0, session)]))
    {
      sequence := 0;
      sessionId := session;
      runs := runs + [Begin(0, session)];
    }

    method BeginSession(session: int64)
      modifies this
      ensures View() == old(View()).(line := Restart(old(View()).line, session))
    {
      hide View;
      ForgetLastId();
      SetSession(session);
    }

    method CorrectCounters(errorCode: int32, serverId: int64, newSession: int64, newSalt: int64)
      modifies this
      ensures View() == Correct(world, old(View()), errorCode, serverId, newSession, newSalt)
    {
      hide Wrap32;
      if errorCode == 16 || errorCode == 17 {
        ForgetLastId();
        var now := ReadClock();
        timeOffset := Wrap32(Wrap32(serverId / 0x1_0000_0000) - now);
      } else if errorCode == 32 || errorCode == 33 {
        BeginSession(newSession);
      } else if errorCode == 48 {
        serverSalt := newSalt;
      }
    }

    method HandleBadMsgNotification(errorCode: int32, badMsgId: int64, serverId: int64, newSession: int64,
                                    newSalt: int64)
      modifies this
      ensures View() == BadMsg(world, old(View()), errorCode, badMsgId, serverId, newSession, newSalt)
    {
      hide Correct, SendContent, Take;
      CorrectCounters(errorCode, serverId, newSession, newSalt);
      SaveSession();
      var body := Take(pendingMessages, badMsgId);
      pendingMessages := pendingMessages - {badMsgId};
      var _ := SendMTMessage(body, badMsgId);
    }

    /** The loop over the keys of the migration table. */
    method ResendMigrated(keys: seq<int64>)
      modifies this
      ensures View() == Resend(world, old(View()), Migration, keys)
    {
      hide SendContent, Take;
      ghost var target := Resend(world, View(), Migration, keys);
      assert keys[0..] == keys;
      for i := 0 to |keys|
        invariant Resend(world, View(), Migration, keys[i..]) == target
      {
        assert keys[i..][0] == keys[i] && keys[i..][1..] == keys[i + 1..];
        var body := Take(migrationMessages, keys[i]);
        migrationMessages := migrationMessages - {keys[i]};
        var _ := SendMTMessage(body, keys[i]);
      }
    }

    /** The loop over the keys of the flood table. */
    method ResendFlooded(keys: seq<int64>)
      modifies this
      ensures View() == Resend(world, old(View()), Flood, keys)
    {
      hide SendContent, Take;
      ghost var target := Resend(world, View(), Flood, keys);
      assert keys[0..] == keys;
      for i := 0 to |keys|
        invariant Resend(world, View(), Flood, keys[i..]) == target
      {
        assert keys[i..][0] == keys[i] && keys[i..][1..] == keys[i + 1..];
        var body := Take(floodMessages, keys[i]);
        floodMessages := floodMessages - {keys[i]};
        var _ := SendMTMessage(body, keys[i]);
      }
    }

    method CheckAuthorization()
      modifies this
      ensures View() == MtTransport.CheckAuthorization(world, old(View()))
    {
      hide Submit;
      if userId == 0 || !isMain { return; }
      var id := SendMTObject(world.getUsers);
      authCheckMsgId := id;
    }

    method HandleAuthorization(user: int64)
      modifies this
      ensures View() == Authorized(world, old(View()), user)
    {
      hide MtTransport.CheckAuthorization;
      userId := user;
      SaveSession();
      CheckAuthorization();
    }

    method HandleConfig(keys: seq<int64>)
      modifies this
      ensures View() == Configured(world, old(View()), keys)
    {
      hide MtTransport.CheckAuthorization, Resend;
      SaveSession();
      ResendMigrated(keys);
      initialized := true;
      CheckAuthorization();
    }

    method TimerEvent(keys: seq<int64>, ping: bytes)
      modifies this
      ensures View() == Tick(world, old(View()), keys, ping)
    {
      hide Resend, Flush, SendService, Bodies;
      if |pendingMessages| >= FORGET_AT { ClearPending(); }
      ResendFlooded(keys);
      SendMsgsAck();
      SaveSession();
      var _ := SendMTServiceObject(ping);
    }

    method InstallKey(salt: int64, offset: int32)
      modifies this
      ensures View() == old(View()).(keyed := true, line := old(View()).line.(salt := salt, offset := offset))
    {
      keyed, serverSalt, timeOffset := true, salt, offset;
    }

    method HandleKeyDerived(session: int64, salt: int64, offset: int32, reply: bytes)
      modifies this
      ensures View() == KeyDerived(world, old(View()), session, salt, offset, reply)
    {
      hide MtTransport.SendPlain, View;
      InstallKey(salt, offset);
      BeginSession(session);
      var _ := SendPlainMessage(reply, 0);
    }
  }
}
